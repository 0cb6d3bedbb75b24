/** The member handlers of internal/workspace/handler.go with their reads, checks and writes as separate
    steps: any number of requests, a role cache that may be stale, lost responses and crashes. */
module OwnerSafety {
  import opened Roles

  type Proc = nat
  type Invite = nat

  /** What a permitted request goes on to do. */
  datatype Job = UpdateJob(target: User, role: string) | RemoveJob(target: User) | InviteJob(invite: Invite)

  datatype Pc =
    | Idle
    | Creating(ws: Workspace, creator: User)            // workspace row inserted, member row not yet
    | Fetched(ws: Workspace, requester: User, role: string, job: Job) // role read, cache not yet filled
    | Permitted(ws: Workspace, requester: User, role: string, job: Job)
    | MayWrite(ws: Workspace, requester: User, target: User, role: string)
    | MayRemove(ws: Workspace, requester: User, target: User, seen: string) // the target's role at the check
    | MayJoin(ws: Workspace, user: User)

  datatype Sys = Sys(
    workspaces: set<Workspace>,
    members: Members,
    cache: Members,                 // cached roles; expiry and invalidation are Drop steps
    procs: map<Proc, Pc>,
    invites: map<Invite, Workspace>, // issued and not yet used
    issued: set<Invite>,            // every invite ever issued
    founded: map<Workspace, User>,  // creators whose OWNER row has been inserted
    held: set<(MemberKey, string)>) // every role a member has ever had

  const START := Sys({}, map[], map[], map[], map[], {}, map[], {})

  datatype Action =
    | CreateWorkspace(p: Proc, newWs: Workspace, user: User)
    | InsertOwner(p: Proc)
    | HitRole(p: Proc, ws: Workspace, requester: User, job: Job)
    | ReadRole(p: Proc, ws: Workspace, requester: User, job: Job)
    | FillRole(p: Proc, lands: bool)
    | CheckTarget(p: Proc)
    | WriteRole(p: Proc)
    | DeleteMember(p: Proc)
    | StartJoin(p: Proc, ws: Workspace, user: User)
    | AcceptInvite(p: Proc, invite: Invite, user: User)
    | InsertMember(p: Proc)
    | Drop(k: MemberKey)
    | Crash(p: Proc)

  function At(s: Sys, p: Proc): Pc { if p in s.procs then s.procs[p] else Idle }

  predicate Holds(role: string) { role == OWNER || role == ADMIN }

  predicate Enabled(s: Sys, a: Action) {
    match a
    case CreateWorkspace(p, newWs, _) => At(s, p).Idle? && newWs !in s.workspaces
    case InsertOwner(p) => At(s, p).Creating?
    case HitRole(p, ws, requester, _) => At(s, p).Idle? && (ws, requester) in s.cache
    case ReadRole(p, ws, requester, _) => At(s, p).Idle? && (ws, requester) in s.members
    case FillRole(p, _) => At(s, p).Fetched?
    case CheckTarget(p) => At(s, p).Permitted?
    case WriteRole(p) => At(s, p).MayWrite?
    case DeleteMember(p) => At(s, p).MayRemove?
    case StartJoin(p, ws, user) => At(s, p).Idle? && ws in s.workspaces && (ws, user) !in s.members
    case AcceptInvite(p, invite, _) => At(s, p).Idle? && invite in s.invites
    case InsertMember(p) => At(s, p).MayJoin?
    case Drop(_) => true
    case Crash(_) => true
  }

  /** The check between reading the target row and acting on it. */
  function AfterCheck(s: Sys, pc: Pc): Pc
    requires pc.Permitted?
  {
    match pc.job
    case UpdateJob(target, role) =>
      if role !in {OWNER, ADMIN, MEMBER} || (role == OWNER && pc.role != OWNER) || (pc.ws, target) !in s.members
         || (s.members[(pc.ws, target)] == OWNER && role != OWNER)
      then Idle else MayWrite(pc.ws, pc.requester, target, role)
    case RemoveJob(target) =>
      if (pc.ws, target) !in s.members || s.members[(pc.ws, target)] == OWNER
         || (s.members[(pc.ws, target)] == ADMIN && pc.role != OWNER)
      then Idle else MayRemove(pc.ws, pc.requester, target, s.members[(pc.ws, target)])
    case InviteJob(_) => Idle
  }

  /** Where the acting process goes. */
  function PcAfter(s: Sys, a: Action): Pc
    requires Enabled(s, a) && !a.Drop?
  {
    var pc := At(s, a.p);
    match a
    case CreateWorkspace(_, newWs, user) => Creating(newWs, user)
    case HitRole(_, ws, requester, job) =>
      var role := s.cache[(ws, requester)];
      if Holds(role) then Permitted(ws, requester, role, job) else Idle
    case ReadRole(_, ws, requester, job) => Fetched(ws, requester, s.members[(ws, requester)], job)
    case FillRole(_, _) => if Holds(pc.role) then Permitted(pc.ws, pc.requester, pc.role, pc.job) else Idle
    case CheckTarget(_) => AfterCheck(s, pc)
    case StartJoin(_, ws, user) => MayJoin(ws, user)
    case AcceptInvite(_, invite, user) => MayJoin(s.invites[invite], user)
    case _ => Idle
  }

  function MembersAfter(s: Sys, a: Action): Members
    requires Enabled(s, a)
  {
    match a
    case InsertOwner(p) =>
      var k := (At(s, p).ws, At(s, p).creator);
      if k in s.members then s.members else s.members[k := OWNER]
    case WriteRole(p) =>
      var k := (At(s, p).ws, At(s, p).target);
      if k in s.members then s.members[k := At(s, p).role] else s.members
    case DeleteMember(p) =>
      var k := (At(s, p).ws, At(s, p).target);
      if k in s.members && s.members[k] != OWNER then s.members - {k} else s.members
    case InsertMember(p) =>
      var k := (At(s, p).ws, At(s, p).user);
      if k in s.members then s.members else s.members[k := MEMBER]
    case _ => s.members
  }

  function CacheAfter(s: Sys, a: Action): Members
    requires Enabled(s, a)
  {
    match a
    case FillRole(p, lands) => if lands then s.cache[(At(s, p).ws, At(s, p).requester) := At(s, p).role] else s.cache
    case Drop(k) => s.cache - {k}
    case _ => s.cache
  }

  function FoundedAfter(s: Sys, a: Action): map<Workspace, User>
    requires Enabled(s, a)
  {
    if a.InsertOwner? && (At(s, a.p).ws, At(s, a.p).creator) !in s.members
    then s.founded[At(s, a.p).ws := At(s, a.p).creator] else s.founded
  }

  predicate Issues(s: Sys, a: Action)
    requires Enabled(s, a)
  {
    a.CheckTarget? && At(s, a.p).job.InviteJob? && At(s, a.p).job.invite !in s.issued
  }

  function InvitesAfter(s: Sys, a: Action): map<Invite, Workspace>
    requires Enabled(s, a)
  {
    if Issues(s, a) then s.invites[At(s, a.p).job.invite := At(s, a.p).ws]
    else if a.AcceptInvite? then s.invites - {a.invite}
    else s.invites
  }

  function Apply(s: Sys, a: Action): Sys
    requires Enabled(s, a)
  {
    Sys(if a.CreateWorkspace? then s.workspaces + {a.newWs} else s.workspaces,
        MembersAfter(s, a),
        CacheAfter(s, a),
        if a.Drop? then s.procs else s.procs[a.p := PcAfter(s, a)],
        InvitesAfter(s, a),
        if Issues(s, a) then s.issued + {At(s, a.p).job.invite} else s.issued,
        FoundedAfter(s, a),
        s.held + MembersAfter(s, a).Items)
  }

  predicate Valid(s: Sys, acts: seq<Action>)
    decreases |acts|
  {
    acts == [] || (Enabled(s, acts[0]) && Valid(Apply(s, acts[0]), acts[1..]))
  }

  function Run(s: Sys, acts: seq<Action>): Sys
    requires Valid(s, acts)
    decreases |acts|
  {
    if acts == [] then s else Run(Apply(s, acts[0]), acts[1..])
  }

  /// Before the creator's row is inserted nobody in the workspace holds any power.

  predicate Powerless(pc: Pc, ws: Workspace) {
    match pc
    case Fetched(w, _, role, _) => w == ws ==> !Holds(role)
    case Permitted(w, _, _, _) => w != ws
    case MayWrite(w, _, _, _) => w != ws
    case MayRemove(w, _, _, _) => w != ws
    case _ => true
  }

  ghost predicate Unfounded(s: Sys, ws: Workspace) {
    && (forall k :: k in s.members && k.0 == ws ==> !Holds(s.members[k]))
    && (forall k :: k in s.cache && k.0 == ws ==> !Holds(s.cache[k]))
    && (forall p :: p in s.procs ==> Powerless(s.procs[p], ws))
  }

  /** Process `p` has passed its checks and is about to give the row a role other than OWNER. */
  predicate Demotes(s: Sys, p: Proc, k: MemberKey) {
    At(s, p).MayWrite? && k == (At(s, p).ws, At(s, p).target) && At(s, p).role != OWNER
  }

  /** The creator is OWNER, and no request that passed its check is about to write anything else. */
  ghost predicate Secured(s: Sys, ws: Workspace, creator: User) {
    Has(s.members, ws, creator, OWNER) && forall p :: !Demotes(s, p, (ws, creator))
  }

  ghost predicate Sound(s: Sys) {
    && (forall ws :: ws !in s.founded ==> Unfounded(s, ws))
    && (forall ws :: ws in s.founded ==> ws in s.workspaces && Secured(s, ws, s.founded[ws]))
    && (forall p :: p in s.procs && s.procs[p].Creating? ==> s.procs[p].ws in s.workspaces && s.procs[p].ws !in s.founded)
    && (forall p, q :: p in s.procs && q in s.procs && p != q && s.procs[p].Creating? && s.procs[q].Creating? ==>
          s.procs[p].ws != s.procs[q].ws)
  }

  /** A step takes an OWNER role away only by a role write to that row. */
  lemma OwnerLostIff(s: Sys, a: Action, k: MemberKey)
    requires Enabled(s, a) && k in s.members && s.members[k] == OWNER
    ensures !(k in Apply(s, a).members && Apply(s, a).members[k] == OWNER) <==>
            a.WriteRole? && k == (At(s, a.p).ws, At(s, a.p).target) && At(s, a.p).role != OWNER
  {
  }

  /** A pending demotion after a step was pending before, unless the step checked the row and found it
      not to be OWNER. */
  lemma DemotionBefore(s: Sys, a: Action, p: Proc, k: MemberKey)
    requires Enabled(s, a) && Demotes(Apply(s, a), p, k)
    ensures Demotes(s, p, k) || (a.CheckTarget? && a.p == p && k in s.members && s.members[k] != OWNER)
    ensures Demotes(s, p, k) ==> (a.WriteRole? ==> a.p != p)
  {
  }

  lemma StepFounded(s: Sys, a: Action, ws: Workspace)
    requires Sound(s) && Enabled(s, a) && ws in s.founded
    ensures ws in Apply(s, a).founded && Apply(s, a).founded[ws] == s.founded[ws]
    ensures Secured(Apply(s, a), ws, s.founded[ws])
  {
    var k := (ws, s.founded[ws]);
    OwnerLostIff(s, a, k);
    if a.WriteRole? {
      assert !Demotes(s, a.p, k);
    }
    forall p ensures !Demotes(Apply(s, a), p, k) {
      if Demotes(Apply(s, a), p, k) {
        DemotionBefore(s, a, p, k);
      }
    }
    if a.InsertOwner? {
      assert s.procs[a.p].Creating?;
    }
  }

  lemma StepPowerless(s: Sys, a: Action, ws: Workspace, p: Proc)
    requires Unfounded(s, ws) && Enabled(s, a) && p in Apply(s, a).procs
    ensures Powerless(Apply(s, a).procs[p], ws)
  {
    assert p in s.procs ==> Powerless(s.procs[p], ws);
  }

  lemma StepUnfounded(s: Sys, a: Action, ws: Workspace)
    requires Unfounded(s, ws) && Enabled(s, a)
    ensures !(a.InsertOwner? && At(s, a.p).ws == ws) ==> Unfounded(Apply(s, a), ws)
  {
    var s' := Apply(s, a);
    forall p | p in s'.procs ensures Powerless(s'.procs[p], ws) {
      StepPowerless(s, a, ws, p);
    }
    assert a.WriteRole? || a.DeleteMember? || a.FillRole? ==> Powerless(s.procs[a.p], ws);
  }

  /** The insert that founds a workspace finds nobody about to write in it. */
  lemma InsertSecures(s: Sys, a: Action)
    requires Sound(s) && Enabled(s, a) && a.InsertOwner?
    ensures var ws := At(s, a.p).ws;
            && ws !in s.founded && ws in s.workspaces
            && (ws in Apply(s, a).founded ==> Secured(Apply(s, a), ws, Apply(s, a).founded[ws]))
            && (ws !in Apply(s, a).founded ==> Unfounded(Apply(s, a), ws))
  {
    var ws := At(s, a.p).ws;
    assert s.procs[a.p].Creating?;
    assert Unfounded(s, ws);
    var s' := Apply(s, a);
    forall p | p in s'.procs ensures Powerless(s'.procs[p], ws) {
      StepPowerless(s, a, ws, p);
    }
  }

  /** A pending creation is either the one this step starts or one that was pending before. */
  lemma StepCreation(s: Sys, a: Action, p: Proc)
    requires Sound(s) && Enabled(s, a) && p in Apply(s, a).procs && Apply(s, a).procs[p].Creating?
    ensures var pc := Apply(s, a).procs[p];
            if a.CreateWorkspace? && p == a.p then pc.ws == a.newWs else p in s.procs && s.procs[p] == pc
    ensures Apply(s, a).procs[p].ws in Apply(s, a).workspaces && Apply(s, a).procs[p].ws !in Apply(s, a).founded
  {
    if a.InsertOwner? && p in s.procs && p != a.p {
      assert s.procs[p].ws != s.procs[a.p].ws;
    }
  }

  lemma StepSound(s: Sys, a: Action)
    requires Sound(s) && Enabled(s, a)
    ensures Sound(Apply(s, a))
  {
    var s' := Apply(s, a);
    forall p | p in s'.procs && s'.procs[p].Creating?
      ensures s'.procs[p].ws in s'.workspaces && s'.procs[p].ws !in s'.founded
    {
      StepCreation(s, a, p);
    }
    forall p, q | p in s'.procs && q in s'.procs && p != q && s'.procs[p].Creating? && s'.procs[q].Creating?
      ensures s'.procs[p].ws != s'.procs[q].ws
    {
      StepCreation(s, a, p);
      StepCreation(s, a, q);
    }
    forall ws ensures ws !in s'.founded ==> Unfounded(s', ws)
              ensures ws in s'.founded ==> ws in s'.workspaces && Secured(s', ws, s'.founded[ws])
    {
      if ws in s.founded {
        StepFounded(s, a, ws);
      } else if a.InsertOwner? && At(s, a.p).ws == ws {
        InsertSecures(s, a);
      } else {
        StepUnfounded(s, a, ws);
      }
    }
  }

  lemma {:induction false} RunSound(s: Sys, acts: seq<Action>)
    requires Valid(s, acts) && Sound(s)
    ensures Sound(Run(s, acts))
    ensures forall ws :: ws in s.founded ==> ws in Run(s, acts).founded && Run(s, acts).founded[ws] == s.founded[ws]
    decreases |acts|
  {
    if acts == [] {
    } else {
      StepSound(s, acts[0]);
      forall ws | ws in s.founded ensures ws in Apply(s, acts[0]).founded && Apply(s, acts[0]).founded[ws] == s.founded[ws] {
        StepFounded(s, acts[0], ws);
      }
      RunSound(Apply(s, acts[0]), acts[1..]);
    }
  }

  /** Once a workspace's creator has been inserted as OWNER, the creator is OWNER ever after, however the
      handlers' reads, checks and writes interleave. */
  lemma CreatorStaysOwner(before: seq<Action>, after: seq<Action>, ws: Workspace)
    requires Valid(START, before) && Valid(Run(START, before), after)
    requires ws in Run(START, before).founded
    ensures Has(Run(Run(START, before), after).members, ws, Run(START, before).founded[ws], OWNER)
  {
    RunSound(START, before);
    RunSound(Run(START, before), after);
  }

  /// Other owners are safe exactly as long as no promotion passes a pending demotion of the same row.

  /** A row is about to become OWNER while another process is about to demote it. Both are visible before
      the write. */
  ghost predicate PromotesOver(s: Sys, a: Action) {
    && a.WriteRole? && At(s, a.p).MayWrite? && At(s, a.p).role == OWNER
    && var k := (At(s, a.p).ws, At(s, a.p).target);
       k in s.members && s.members[k] != OWNER && exists q :: Demotes(s, q, k)
  }

  /** No OWNER row has a pending demotion. */
  ghost predicate Unthreatened(s: Sys) {
    forall k, p :: k in s.members && s.members[k] == OWNER ==> !Demotes(s, p, k)
  }

  /** No step enabled in `s` takes an OWNER role away. */
  ghost predicate NoOwnerAtRisk(s: Sys) {
    forall a :: Enabled(s, a) ==> Owners(s.members) <= Owners(Apply(s, a).members)
  }

  lemma UnthreatenedIff(s: Sys)
    ensures Unthreatened(s) <==> NoOwnerAtRisk(s)
  {
    if Unthreatened(s) {
      forall a | Enabled(s, a) ensures Owners(s.members) <= Owners(Apply(s, a).members) {
        forall k | k in Owners(s.members) ensures k in Owners(Apply(s, a).members) {
          OwnerLostIff(s, a, k);
          assert a.WriteRole? ==> !Demotes(s, a.p, k);
        }
      }
    } else {
      var k, p :| k in s.members && s.members[k] == OWNER && Demotes(s, p, k);
      OwnerLostIff(s, WriteRole(p), k);
      assert Enabled(s, WriteRole(p)) && k in Owners(s.members);
    }
  }

  /** The step turns the row into an OWNER row. */
  predicate Crowns(s: Sys, a: Action, k: MemberKey) {
    || (a.WriteRole? && At(s, a.p).MayWrite? && At(s, a.p).role == OWNER && k == (At(s, a.p).ws, At(s, a.p).target))
    || (a.InsertOwner? && At(s, a.p).Creating? && k == (At(s, a.p).ws, At(s, a.p).creator))
  }

  lemma OwnerBefore(s: Sys, a: Action, k: MemberKey)
    requires Enabled(s, a) && k in Apply(s, a).members && Apply(s, a).members[k] == OWNER
    ensures (k in s.members && s.members[k] == OWNER) || Crowns(s, a, k)
    ensures !Crowns(s, a, k) ==> k in s.members && s.members[k] == OWNER
    ensures a.InsertOwner? && !(k in s.members) ==> At(s, a.p).ws == k.0
    ensures a.WriteRole? ==> k in s.members
  {
  }

  /** From a sound state without a pending demotion of an owner, a step leads to such a state iff it does
      not promote over a pending demotion. */
  lemma StepUnthreatenedIff(s: Sys, a: Action)
    requires Sound(s) && Unthreatened(s) && Enabled(s, a)
    ensures Unthreatened(Apply(s, a)) <==> !PromotesOver(s, a)
  {
    var s' := Apply(s, a);
    if PromotesOver(s, a) {
      var q := PromotionIsLost(s, a);
    } else {
      forall k, p | k in s'.members && s'.members[k] == OWNER ensures !Demotes(s', p, k) {
        OwnerBefore(s, a, k);
        if a.InsertOwner? {
          assert s.procs[a.p].Creating? && Unfounded(s, s.procs[a.p].ws);
        }
        if Demotes(s', p, k) {
          DemotionBefore(s, a, p, k);
        }
      }
    }
  }

  /** After such a promotion the demotion is still enabled, and takes the role away again. */
  lemma PromotionIsLost(s: Sys, a: Action) returns (q: Proc)
    requires Enabled(s, a) && PromotesOver(s, a)
    ensures var k, s' := (At(s, a.p).ws, At(s, a.p).target), Apply(s, a);
            && k in Owners(s'.members) && Demotes(s', q, k) && Enabled(s', WriteRole(q))
            && k !in Owners(Apply(s', WriteRole(q)).members)
  {
    var k := (At(s, a.p).ws, At(s, a.p).target);
    q :| Demotes(s, q, k);
    assert q != a.p && At(Apply(s, a), q) == At(s, q);
  }

  /** No step of the run promotes over a pending demotion. */
  ghost predicate NoPromotesOver(s: Sys, acts: seq<Action>)
    requires Valid(s, acts)
    decreases |acts|
  {
    acts != [] ==> !PromotesOver(s, acts[0]) && NoPromotesOver(Apply(s, acts[0]), acts[1..])
  }

  /** In no state of the run does an enabled step take an OWNER role away. */
  ghost predicate OwnersSafeThroughout(s: Sys, acts: seq<Action>)
    requires Valid(s, acts)
    decreases |acts|
  {
    NoOwnerAtRisk(s) && (acts != [] ==> OwnersSafeThroughout(Apply(s, acts[0]), acts[1..]))
  }

  lemma {:induction false} RunSafeIff(s: Sys, acts: seq<Action>)
    requires Valid(s, acts) && Sound(s) && Unthreatened(s)
    ensures OwnersSafeThroughout(s, acts) <==> NoPromotesOver(s, acts)
    decreases |acts|
  {
    UnthreatenedIff(s);
    if acts == [] {
    } else {
      var s' := Apply(s, acts[0]);
      StepSound(s, acts[0]);
      StepUnthreatenedIff(s, acts[0]);
      if Unthreatened(s') {
        RunSafeIff(s', acts[1..]);
      } else {
        UnthreatenedIff(s');
      }
    }
  }

  /** No OWNER role is ever at risk along a run iff the run never promotes a member while a demotion of
      the same member, checked earlier, is still to be written. */
  lemma OwnersSafeIff(acts: seq<Action>)
    requires Valid(START, acts)
    ensures OwnersSafeThroughout(START, acts) <==> NoPromotesOver(START, acts)
  {
    RunSafeIff(START, acts);
  }

  lemma {:induction false} RunKeepsOwners(s: Sys, acts: seq<Action>)
    requires Valid(s, acts) && OwnersSafeThroughout(s, acts)
    ensures Owners(s.members) <= Owners(Run(s, acts).members)
    decreases |acts|
  {
    if acts == [] {
    } else {
      assert Enabled(s, acts[0]);
      RunKeepsOwners(Apply(s, acts[0]), acts[1..]);
    }
  }

  /** In every interleaving without such a promotion the OWNER set never shrinks. */
  lemma OwnersGrowUnlessPromotedOver(before: seq<Action>, after: seq<Action>)
    requires Valid(START, before) && Valid(Run(START, before), after)
    requires NoPromotesOver(START, before) && NoPromotesOver(Run(START, before), after)
    ensures Owners(Run(START, before).members) <= Owners(Run(Run(START, before), after).members)
  {
    RunUnthreatened(START, before);
    RunSafeIff(Run(START, before), after);
    RunKeepsOwners(Run(START, before), after);
  }

  lemma {:induction false} RunUnthreatened(s: Sys, acts: seq<Action>)
    requires Valid(s, acts) && Sound(s) && Unthreatened(s) && NoPromotesOver(s, acts)
    ensures Sound(Run(s, acts)) && Unthreatened(Run(s, acts))
    decreases |acts|
  {
    if acts == [] {
    } else {
      StepSound(s, acts[0]);
      StepUnthreatenedIff(s, acts[0]);
      RunUnthreatened(Apply(s, acts[0]), acts[1..]);
    }
  }

  lemma {:induction false} RunConcat(s: Sys, first: seq<Action>, second: seq<Action>)
    requires Valid(s, first) && Valid(Run(s, first), second)
    ensures Valid(s, first + second) && Run(s, first + second) == Run(Run(s, first), second)
    decreases |first|
  {
    if first == [] {
      assert first + second == second;
    } else {
      assert (first + second)[1..] == first[1..] + second;
      RunConcat(Apply(s, first[0]), first[1..], second);
    }
  }

  lemma RunOne(s: Sys, a: Action)
    requires Enabled(s, a)
    ensures Valid(s, [a]) && Run(s, [a]) == Apply(s, a)
  {
    assert [a][1..] == [];
  }

  function UpdateUpToCheck(p: Proc, ws: Workspace, requester: User, target: User, role: string): seq<Action> {
    [ReadRole(p, ws, requester, UpdateJob(target, role))] + [FillRole(p, false)] + [CheckTarget(p)]
  }

  /** An owner's request to change a plain member's role passes its check and stands before its write. */
  lemma UpdateReachesWrite(s: Sys, p: Proc, ws: Workspace, requester: User, target: User, role: string)
    requires At(s, p).Idle? && Has(s.members, ws, requester, OWNER) && Has(s.members, ws, target, MEMBER)
    requires role in {OWNER, ADMIN}
    ensures Valid(s, UpdateUpToCheck(p, ws, requester, target, role))
    ensures Run(s, UpdateUpToCheck(p, ws, requester, target, role)) ==
            s.(procs := s.procs[p := MayWrite(ws, requester, target, role)], held := s.held + s.members.Items)
  {
    var read, fill, check := ReadRole(p, ws, requester, UpdateJob(target, role)), FillRole(p, false), CheckTarget(p);
    var s1 := Apply(s, read);
    var s2 := Apply(s1, fill);
    RunOne(s, read);
    RunOne(s1, fill);
    RunOne(s2, check);
    RunConcat(s, [read], [fill]);
    RunConcat(s, [read] + [fill], [check]);
    assert At(s2, p) == Permitted(ws, requester, OWNER, UpdateJob(target, role));
    assert Apply(s2, check).procs == s.procs[p := MayWrite(ws, requester, target, role)];
    assert Apply(s2, check).held == s.held + s.members.Items;
  }

  /** A member promoted to OWNER loses the role again when an update that was checked before the
      promotion is written after it: from any state with an owner, a member and two free handlers. */
  lemma PromotedOwnerCanBeDemoted(s: Sys, ws: Workspace, owner: User, target: User) returns (promote: seq<Action>)
    requires Has(s.members, ws, owner, OWNER) && Has(s.members, ws, target, MEMBER)
    requires At(s, 0).Idle? && At(s, 1).Idle?
    ensures Valid(s, promote) && Has(Run(s, promote).members, ws, target, OWNER)
    ensures Enabled(Run(s, promote), WriteRole(0))
    ensures Has(Apply(Run(s, promote), WriteRole(0)).members, ws, target, ADMIN)
  {
    var first := UpdateUpToCheck(0, ws, owner, target, ADMIN);
    UpdateReachesWrite(s, 0, ws, owner, target, ADMIN);
    var s1 := Run(s, first);
    var second := UpdateUpToCheck(1, ws, owner, target, OWNER);
    UpdateReachesWrite(s1, 1, ws, owner, target, OWNER);
    RunConcat(s, first, second);
    var s2 := Run(s1, second);
    RunOne(s2, WriteRole(1));
    RunConcat(s, first + second, [WriteRole(1)]);
    promote := first + second + [WriteRole(1)];
  }

  /// What each step does to the member rows, and who was allowed to cause it

  /** The only steps that change a row: the creator's insert, the write of a checked role, the removal of a
      row that is not OWNER, and the insert of a new member. */
  lemma RowAfter(s: Sys, a: Action, k: MemberKey)
    requires Enabled(s, a)
    ensures var was, m' := k in s.members, Apply(s, a).members;
            var pc := if a.InsertOwner? || a.WriteRole? || a.DeleteMember? || a.InsertMember? then At(s, a.p) else Idle;
            if pc.Creating? && k == (pc.ws, pc.creator) && !was then k in m' && m'[k] == "OWNER"
            else if a.WriteRole? && k == (pc.ws, pc.target) && was then k in m' && m'[k] == pc.role
            else if a.DeleteMember? && k == (pc.ws, pc.target) && was && s.members[k] != "OWNER" then k !in m'
            else if pc.MayJoin? && k == (pc.ws, pc.user) && !was then k in m' && m'[k] == "MEMBER"
            else (k in m') == was && (was ==> m'[k] == s.members[k])
  {
  }

  /** A request whose role has been read goes on iff the role is OWNER or ADMIN. */
  lemma PermittedIff(s: Sys, a: Action)
    requires Enabled(s, a) && (a.HitRole? || a.FillRole?)
    ensures var role := if a.HitRole? then s.cache[(a.ws, a.requester)] else At(s, a.p).role;
            && (At(Apply(s, a), a.p).Permitted? <==> role == "OWNER" || role == "ADMIN")
            && (At(Apply(s, a), a.p).Permitted? ==> At(Apply(s, a), a.p).role == role)
  {
  }

  /** The check lets an update through to its write iff the role it asks for exists, only an owner asks for
      OWNER, and the target is a member who keeps OWNER. */
  lemma UpdateCheckIff(s: Sys, p: Proc)
    requires Enabled(s, CheckTarget(p)) && At(s, p).job.UpdateJob?
    ensures var pc, pc' := At(s, p), At(Apply(s, CheckTarget(p)), p);
            var k := (pc.ws, pc.job.target);
            && (pc' == MayWrite(pc.ws, pc.requester, pc.job.target, pc.job.role) <==>
                  && k in s.members && pc.job.role in {"OWNER", "ADMIN", "MEMBER"}
                  && (pc.job.role == "OWNER" ==> pc.role == "OWNER")
                  && (s.members[k] == "OWNER" ==> pc.job.role == "OWNER"))
            && (pc'.Idle? || pc'.MayWrite?)
  {
  }

  /** The check lets a removal through iff the target is a member, no owner, and an admin only if the
      requester's role is OWNER. */
  lemma RemoveCheckIff(s: Sys, p: Proc)
    requires Enabled(s, CheckTarget(p)) && At(s, p).job.RemoveJob?
    ensures var pc, pc' := At(s, p), At(Apply(s, CheckTarget(p)), p);
            var k := (pc.ws, pc.job.target);
            && (pc'.MayRemove? <==>
                  k in s.members && s.members[k] != "OWNER" && (s.members[k] == "ADMIN" ==> pc.role == "OWNER"))
            && (pc'.MayRemove? ==> pc' == MayRemove(pc.ws, pc.requester, pc.job.target, s.members[k]))
            && (pc'.Idle? || pc'.MayRemove?)
  {
  }

  /** The member had the role in some state of the run. */
  ghost predicate HeldIn(s: Sys, acts: seq<Action>, k: MemberKey, role: string)
    requires Valid(s, acts)
    decreases |acts|
  {
    || (k in s.members && s.members[k] == role)
    || (acts != [] && HeldIn(Apply(s, acts[0]), acts[1..], k, role))
  }

  lemma {:induction false} HeldMeansHeld(s: Sys, acts: seq<Action>, k: MemberKey, role: string)
    requires Valid(s, acts) && (k, role) in Run(s, acts).held && (k, role) !in s.held
    ensures HeldIn(s, acts, k, role)
    decreases |acts|
  {
    var s' := Apply(s, acts[0]);
    if (k, role) in s'.held {
      assert HeldIn(s', acts[1..], k, role);
    } else {
      HeldMeansHeld(s', acts[1..], k, role);
    }
  }

  /** Every role a request acts on was held by its requester, and is high enough for what it does. */
  predicate EarnedBy(pc: Pc, held: set<(MemberKey, string)>) {
    match pc
    case Fetched(ws, requester, role, _) => ((ws, requester), role) in held
    case Permitted(ws, requester, role, _) => ((ws, requester), role) in held && (role == "OWNER" || role == "ADMIN")
    case MayWrite(ws, requester, _, role) =>
      || ((ws, requester), "OWNER") in held
      || (((ws, requester), "ADMIN") in held && role != "OWNER")
    case MayRemove(ws, requester, _, seen) =>
      && seen != "OWNER"
      && (((ws, requester), "OWNER") in held || (((ws, requester), "ADMIN") in held && seen != "ADMIN"))
    case _ => true
  }

  ghost predicate Earned(s: Sys) {
    && (forall k :: k in s.members ==> (k, s.members[k]) in s.held)
    && (forall k :: k in s.cache ==> (k, s.cache[k]) in s.held)
    && (forall p :: p in s.procs ==> EarnedBy(s.procs[p], s.held))
  }

  lemma StepEarned(s: Sys, a: Action)
    requires Earned(s) && Enabled(s, a)
    ensures Earned(Apply(s, a))
  {
    var s' := Apply(s, a);
    assert s.held <= s'.held;
    forall k | k in s'.members ensures (k, s'.members[k]) in s'.held {
      RowAfter(s, a, k);
    }
    forall p | p in s'.procs ensures EarnedBy(s'.procs[p], s'.held) {
      ProcEarned(s, a, p);
    }
  }

  lemma ProcEarned(s: Sys, a: Action, p: Proc)
    requires Earned(s) && Enabled(s, a) && p in Apply(s, a).procs
    ensures EarnedBy(Apply(s, a).procs[p], s.held)
  {
    assert p in s.procs ==> EarnedBy(s.procs[p], s.held);
  }

  lemma {:induction false} RunEarned(s: Sys, acts: seq<Action>)
    requires Valid(s, acts) && Earned(s)
    ensures Earned(Run(s, acts))
    decreases |acts|
  {
    if acts == [] {
    } else {
      StepEarned(s, acts[0]);
      RunEarned(Apply(s, acts[0]), acts[1..]);
    }
  }

  /** In every interleaving, whoever becomes OWNER is a workspace's creator or is promoted by a request whose
      requester held OWNER in that workspace at some point of the run. */
  lemma PromotersWereOwners(acts: seq<Action>, a: Action, k: MemberKey)
    requires Valid(START, acts) && Enabled(Run(START, acts), a)
    requires k !in Owners(Run(START, acts).members) && k in Owners(Apply(Run(START, acts), a).members)
    ensures var pc := At(Run(START, acts), a.p);
            || (a.InsertOwner? && k == (pc.ws, pc.creator))
            || (a.WriteRole? && k == (pc.ws, pc.target) && HeldIn(START, acts, (k.0, pc.requester), "OWNER"))
  {
    var s := Run(START, acts);
    RunEarned(START, acts);
    RowAfter(s, a, k);
    if a.WriteRole? {
      var pc := At(s, a.p);
      assert EarnedBy(s.procs[a.p], s.held);
      if k == (pc.ws, pc.target) {
        HeldMeansHeld(START, acts, (k.0, pc.requester), "OWNER");
      }
    }
  }

  /** In every interleaving, a request that is about to remove a member it saw as ADMIN has a requester who
      held OWNER, and no request is about to remove a member it saw as OWNER. */
  lemma RemoversOfAdminsWereOwners(acts: seq<Action>, p: Proc)
    requires Valid(START, acts) && At(Run(START, acts), p).MayRemove?
    ensures var pc := At(Run(START, acts), p);
            && pc.seen != "OWNER"
            && (pc.seen == "ADMIN" ==> HeldIn(START, acts, (pc.ws, pc.requester), "OWNER"))
  {
    var s := Run(START, acts);
    RunEarned(START, acts);
    assert EarnedBy(s.procs[p], s.held);
    if At(s, p).seen == "ADMIN" {
      HeldMeansHeld(START, acts, (At(s, p).ws, At(s, p).requester), "OWNER");
    }
  }

  /// Invites are used once.

  ghost predicate Used(s: Sys, invite: Invite) { invite in s.issued && invite !in s.invites }

  lemma {:induction false} InvitesAreIssued(s: Sys, acts: seq<Action>)
    requires Valid(s, acts) && s.invites.Keys <= s.issued
    ensures Run(s, acts).invites.Keys <= Run(s, acts).issued
    decreases |acts|
  {
    if acts == [] {
    } else {
      InvitesAreIssued(Apply(s, acts[0]), acts[1..]);
    }
  }

  lemma {:induction false} UsedStaysUsed(s: Sys, acts: seq<Action>, invite: Invite)
    requires Valid(s, acts) && Used(s, invite)
    ensures Used(Run(s, acts), invite)
    decreases |acts|
  {
    if acts == [] {
    } else {
      UsedStaysUsed(Apply(s, acts[0]), acts[1..], invite);
    }
  }

  /** An invite that has been accepted is never accepted again, by anybody. */
  lemma InviteUsedOnce(before: seq<Action>, p: Proc, invite: Invite, user: User, after: seq<Action>, q: Proc, other: User)
    requires Valid(START, before) && Enabled(Run(START, before), AcceptInvite(p, invite, user))
    requires Valid(Apply(Run(START, before), AcceptInvite(p, invite, user)), after)
    ensures !Enabled(Run(Apply(Run(START, before), AcceptInvite(p, invite, user)), after), AcceptInvite(q, invite, other))
  {
    InvitesAreIssued(START, before);
    UsedStaysUsed(Apply(Run(START, before), AcceptInvite(p, invite, user)), after, invite);
  }
}
