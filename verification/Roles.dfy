/** Workspace roles: the member table of services/database/workspace.sql.go, the role cache of
    internal/permission/cache.go and the read-through check of internal/auth/roles.go. */
module Roles {
  import opened Redis

  type Workspace = nat
  type User = nat
  type MemberKey = (Workspace, User)
  type Members = map<MemberKey, string>

  const OWNER := "OWNER"
  const ADMIN := "ADMIN"
  const MEMBER := "MEMBER"

  datatype Permission = MayCreateChannel | MayDeleteMessage | MayRemoveMember | MayInvite | MayUpdateRole | MayManageWebhooks

  const ELEVATED: set<Permission> :=
    {MayCreateChannel, MayDeleteMessage, MayRemoveMember, MayInvite, MayUpdateRole, MayManageWebhooks}

  /** The permission matrix; roles outside it hold nothing. */
  const MATRIX: map<string, set<Permission>> :=
    map[OWNER := ELEVATED, ADMIN := ELEVATED, MEMBER := {}, "GUEST" := {}]

  predicate Check(role: string, p: Permission) { role in MATRIX && p in MATRIX[role] }

  datatype Decision = Granted(role: string) | Forbidden

  /** The decision without a cache. */
  function Uncached(db: Members, k: MemberKey, p: Permission): Decision {
    if k in db && Check(db[k], p) then Granted(db[k]) else Forbidden
  }

  /** How the cache behaves during one check. */
  datatype CacheFaults = CacheFaults(readFails: bool, writeFails: bool)

  class RoleStore {
    var db: Members
    const cache: RedisStore<MemberKey>
    const ttl: nat

    constructor (ttl: nat)
      ensures fresh(cache) && db == map[] && cache.data == map[] && this.ttl == ttl
    {
      db, this.ttl := map[], ttl;
      cache := new RedisStore();
    }

    /** Serial agreement: whatever the cache would answer is what the table says. */
    ghost predicate Coherent()
      reads this, cache
    {
      forall k :: k in cache.data ==> k in db && db[k] == cache.data[k].value
    }

    method RequirePermission(k: MemberKey, p: Permission, now: int, f: CacheFaults) returns (d: Decision)
      requires Coherent()
      modifies cache
      ensures Coherent()
      ensures d == Uncached(db, k, p)
    {
      if !f.readFails {
        var hit, role := cache.Get(k, now);
        if hit {
          return if Check(role, p) then Granted(role) else Forbidden;
        }
      }
      if k !in db {
        return Forbidden;
      }
      var role := db[k];
      if !f.writeFails {
        cache.Set(k, role, ttl, now);
      }
      return if Check(role, p) then Granted(role) else Forbidden;
    }

    /** INSERT of a member row, refused when the row exists; then the cached role is dropped. */
    method AddMember(k: MemberKey, role: string) returns (ok: bool)
      requires Coherent()
      modifies this, cache
      ensures Coherent()
      ensures ok == (k !in old(db))
      ensures db == if ok then old(db)[k := role] else old(db)
    {
      if k in db {
        return false;
      }
      db := db[k := role];
      cache.Del(k);
      return true;
    }

    method UpdateMemberRole(ws: Workspace, requester: User, target: User, role: string, now: int, f: CacheFaults)
      returns (ok: bool)
      requires Coherent()
      modifies this, cache
      ensures Coherent()
      ensures ok <==> UpdateAllowed(old(db), ws, requester, target, role)
      ensures db == if ok then old(db)[(ws, target) := role] else old(db)
    {
      var d := RequirePermission((ws, requester), MayUpdateRole, now, f);
      if d.Forbidden? || (role != OWNER && role != ADMIN && role != MEMBER) {
        return false;
      }
      if role == OWNER && d.role != OWNER {
        return false;
      }
      var k := (ws, target);
      if k !in db {
        return false;
      }
      if db[k] == OWNER && role != OWNER {
        return false;
      }
      db := db[k := role];
      cache.Del(k);
      return true;
    }

    method RemoveMember(ws: Workspace, requester: User, target: User, now: int, f: CacheFaults) returns (ok: bool)
      requires Coherent()
      modifies this, cache
      ensures Coherent()
      ensures ok <==> RemoveAllowed(old(db), ws, requester, target)
      ensures db == if ok then old(db) - {(ws, target)} else old(db)
    {
      var d := RequirePermission((ws, requester), MayRemoveMember, now, f);
      var k := (ws, target);
      if d.Forbidden? || k !in db {
        return false;
      }
      if db[k] == OWNER || (db[k] == ADMIN && d.role != OWNER) {
        return false;
      }
      if db[k] != OWNER {
        db := db - {k};
      }
      cache.Del(k);
      return true;
    }
  }

  predicate Has(db: Members, ws: Workspace, u: User, role: string) { (ws, u) in db && db[(ws, u)] == role }

  predicate Elevated(db: Members, ws: Workspace, u: User) { Has(db, ws, u, OWNER) || Has(db, ws, u, ADMIN) }

  /** Who may set whose role: owners and admins, nobody but an owner makes an owner, and an owner keeps
      the role. */
  predicate UpdateAllowed(db: Members, ws: Workspace, requester: User, target: User, role: string) {
    && Elevated(db, ws, requester) && (ws, target) in db
    && role in {OWNER, ADMIN, MEMBER}
    && (role == OWNER ==> Has(db, ws, requester, OWNER))
    && (Has(db, ws, target, OWNER) ==> role == OWNER)
  }

  predicate RemoveAllowed(db: Members, ws: Workspace, requester: User, target: User) {
    && Elevated(db, ws, requester) && (ws, target) in db
    && !Has(db, ws, target, OWNER)
    && (Has(db, ws, target, ADMIN) ==> Has(db, ws, requester, OWNER))
  }

  /// Serial runs: the owners only ever grow.

  datatype Op =
    | Add(k: MemberKey, role: string)
    | Update(ws: Workspace, requester: User, target: User, role: string)
    | Remove(ws: Workspace, requester: User, target: User)

  function Perform(db: Members, op: Op): Members {
    match op
    case Add(k, role) => if k in db then db else db[k := role]
    case Update(ws, requester, target, role) =>
      if UpdateAllowed(db, ws, requester, target, role) then db[(ws, target) := role] else db
    case Remove(ws, requester, target) =>
      if RemoveAllowed(db, ws, requester, target) then db - {(ws, target)} else db
  }

  function PerformAll(db: Members, ops: seq<Op>): Members
    decreases |ops|
  {
    if ops == [] then db else PerformAll(Perform(db, ops[0]), ops[1..])
  }

  /// Who may do what, role by role

  /** Owners and admins hold all six elevated permissions, everybody else none. */
  lemma PermissionTable(role: string, p: Permission)
    ensures Check(role, p) <==> role == "OWNER" || role == "ADMIN"
  {
  }

  /** Each of these operations is open to a member iff the member's role is OWNER or ADMIN, and is told the
      role. */
  lemma UncachedIff(db: Members, k: MemberKey, p: Permission)
    ensures Uncached(db, k, p) ==
            if k in db && (db[k] == "OWNER" || db[k] == "ADMIN") then Granted(db[k]) else Forbidden
  {
  }

  /** An owner gives any member any of the three roles, but takes OWNER from nobody; an admin makes members
      who are not owners ADMIN or MEMBER; nobody else changes a role. */
  lemma UpdateTable(db: Members, ws: Workspace, requester: User, target: User, role: string)
    ensures UpdateAllowed(db, ws, requester, target, role) <==>
            && (ws, requester) in db && (ws, target) in db
            && match db[(ws, requester)] {
                 case "OWNER" => role == "OWNER" || (role in {"ADMIN", "MEMBER"} && db[(ws, target)] != "OWNER")
                 case "ADMIN" => role in {"ADMIN", "MEMBER"} && db[(ws, target)] != "OWNER"
                 case _ => false
               }
  {
  }

  /** An owner removes anybody who is not an owner, an admin anybody who is neither owner nor admin; nobody
      else removes anybody. */
  lemma RemoveTable(db: Members, ws: Workspace, requester: User, target: User)
    ensures RemoveAllowed(db, ws, requester, target) <==>
            && (ws, requester) in db && (ws, target) in db
            && match db[(ws, requester)] {
                 case "OWNER" => db[(ws, target)] != "OWNER"
                 case "ADMIN" => db[(ws, target)] != "OWNER" && db[(ws, target)] != "ADMIN"
                 case _ => false
               }
  {
  }

  /** The i-th operation makes `k` an owner: an insert of that role, or an update by an owner. */
  predicate MakesOwner(db: Members, ops: seq<Op>, i: nat, k: MemberKey) {
    && i < |ops|
    && match ops[i]
       case Add(key, role) => key == k && role == "OWNER"
       case Update(ws, requester, target, role) =>
         (ws, target) == k && role == "OWNER" && (ws, requester) in Owners(PerformAll(db, ops[..i]))
       case Remove(_, _, _) => false
  }

  /** Over any serial run, whoever is an owner at the end was one at the start, was inserted as one, or was
      promoted by somebody who was an owner then. */
  lemma {:induction false} PromotedByOwner(db: Members, ops: seq<Op>, k: MemberKey)
    ensures k in Owners(PerformAll(db, ops)) ==> k in Owners(db) || exists i: nat :: MakesOwner(db, ops, i, k)
    decreases |ops|
  {
    if ops == [] {
    } else {
      var db' := Perform(db, ops[0]);
      PromotedByOwner(db', ops[1..], k);
      if exists i: nat :: MakesOwner(db', ops[1..], i, k) {
        var i: nat :| MakesOwner(db', ops[1..], i, k);
        assert ops[..i + 1][1..] == ops[1..][..i] && ops[..i + 1][0] == ops[0];
        assert MakesOwner(db, ops, i + 1, k);
      } else if k in Owners(db') && k !in Owners(db) {
        assert PerformAll(db, ops[..0]) == db;
        assert MakesOwner(db, ops, 0, k);
      }
    }
  }

  function Owners(db: Members): set<MemberKey> { set k | k in db && db[k] == OWNER }

  lemma {:induction false} OwnersNeverShrink(db: Members, ops: seq<Op>)
    ensures Owners(db) <= Owners(PerformAll(db, ops))
    decreases |ops|
  {
    if ops == [] {
    } else {
      OwnersNeverShrink(Perform(db, ops[0]), ops[1..]);
    }
  }
}
