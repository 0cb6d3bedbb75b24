/** runOutbox of apps/api/cmd/core/main.go: any number of publishers claim, publish and acknowledge
    outbox rows, interleaved, with failing publishes, lost database calls and crashes. */
module OutboxWorkers {
  import opened Outbox
  import opened Wrappers

  const BATCH := 100

  type Worker = nat

  /** What a publisher does next with the first row it still holds. */
  datatype Phase = ToPublish | ToAck | ToRelease

  datatype Work = Work(token: Token, todo: seq<Id>, phase: Phase)

  /** How a PublishRaw call ends: it returns nil once the broker has stored the record; it may also return
      an error although the broker has stored it. */
  datatype Outcome = Confirmed | StoredUnseen | NotStored

  datatype PublishCall = PublishCall(id: Id, token: Token, outcome: Outcome) {
    predicate Ok() { outcome.Confirmed? }
    predicate Stored() { !outcome.NotStored? }
  }

  datatype Sys = Sys(
    clock: int,
    table: Table,
    workers: map<Worker, Work>,
    used: set<Token>,
    calls: seq<PublishCall>)

  function Init(clock: int): Sys { Sys(clock, map[], map[], {}, []) }

  /** `seen` is false when the claim commits but its reply is lost; `lands` is false when an
      acknowledgement or release does not reach the table. */
  datatype Action =
    | Tick(d: nat)
    | Enqueue(id: Id, createdAt: int)
    | Claim(w: Worker, token: Token, hostNow: int, locked: set<Id>, ids: seq<Id>, seen: bool)
    | Publish(w: Worker, outcome: Outcome)
    | Ack(w: Worker, lands: bool)
    | Release(w: Worker, lands: bool)
    | Crash(w: Worker)

  ghost predicate Enabled(s: Sys, a: Action) {
    match a
    case Tick(_) => true
    case Enqueue(id, _) => id !in s.table
    case Claim(w, token, hostNow, locked, ids, _) =>
      && w !in s.workers && token !in s.used
      && OldestFirst(s.table, Candidates(s.table, hostNow, locked), ids, BATCH)
    case Publish(w, _) => w in s.workers && s.workers[w].phase == ToPublish && s.workers[w].todo != []
    case Ack(w, _) => w in s.workers && s.workers[w].phase == ToAck && s.workers[w].todo != []
    case Release(w, _) => w in s.workers && s.workers[w].phase == ToRelease && s.workers[w].todo != []
    case Crash(w) => w in s.workers
  }

  /** The publisher is done with its first row. */
  function Advance(s: Sys, w: Worker): Sys
    requires w in s.workers && s.workers[w].todo != []
  {
    var k := s.workers[w];
    s.(workers := if |k.todo| == 1 then s.workers - {w} else s.workers[w := Work(k.token, k.todo[1..], ToPublish)])
  }

  ghost function Apply(s: Sys, a: Action): Sys
    requires Enabled(s, a)
  {
    match a
    case Tick(d) => s.(clock := s.clock + d)
    case Enqueue(id, createdAt) => s.(table := s.table[id := Row(createdAt, Null, Null, NoToken, 0)])
    case Claim(w, token, _, _, ids, seen) =>
      s.(table := ClaimRows(s.table, Ids(ids), token, s.clock), used := s.used + {token},
         workers := if seen && ids != [] then s.workers[w := Work(token, ids, ToPublish)] else s.workers)
    case Publish(w, outcome) =>
      var k := s.workers[w];
      s.(workers := s.workers[w := k.(phase := if outcome.Confirmed? then ToAck else ToRelease)],
         calls := s.calls + [PublishCall(k.todo[0], k.token, outcome)])
    case Ack(w, lands) =>
      var k := s.workers[w];
      Advance(s, w).(table := if lands then MarkRow(s.table, k.todo[0], k.token, s.clock) else s.table)
    case Release(w, lands) =>
      var k := s.workers[w];
      Advance(s, w).(table := if lands then ReleaseRow(s.table, k.todo[0], k.token) else s.table)
    case Crash(w) => s.(workers := s.workers - {w})
  }

  ghost predicate Valid(s: Sys, acts: seq<Action>)
    decreases |acts|
  {
    acts == [] || (Enabled(s, acts[0]) && Valid(Apply(s, acts[0]), acts[1..]))
  }

  ghost function Run(s: Sys, acts: seq<Action>): Sys
    requires Valid(s, acts)
    decreases |acts|
  {
    if acts == [] then s else Run(Apply(s, acts[0]), acts[1..])
  }

  /** What goes wrong: a crash loses the publisher's work but no row; a claim whose reply is lost holds its
      rows all the same, with nobody to publish them; time passes only when it is said to. */
  lemma FaultMeaning(s: Sys, a: Action)
    requires Enabled(s, a)
    ensures var s' := Apply(s, a);
            && (a.Crash? ==> a.w !in s'.workers && s'.table == s.table && s'.calls == s.calls)
            && (a.Claim? && !a.seen ==>
                  s'.workers == s.workers && forall id :: id in a.ids && id in s.table ==> Owns(s'.table, id, a.token))
            && (a.Claim? && a.seen && a.ids != [] ==> a.w in s'.workers && s'.workers[a.w].todo == a.ids)
            && ((a.Ack? || a.Release?) && !a.lands ==> s'.table == s.table)
            && s'.clock == s.clock + if a.Tick? then a.d else 0
  {
    if a.Claim? {
      assert forall id :: id in a.ids <==> id in Ids(a.ids);
    }
  }

  /// Basic bookkeeping

  predicate OrderlyWork(k: Work, table: Table, used: set<Token>) {
    k.token in used && k.todo != [] && Distinct(k.todo) && forall id :: id in k.todo ==> id in table
  }

  ghost predicate Orderly(s: Sys) {
    && (forall w :: w in s.workers ==> OrderlyWork(s.workers[w], s.table, s.used))
    && (forall v, w :: v in s.workers && w in s.workers && v != w ==> s.workers[v].token != s.workers[w].token)
    && (forall id :: id in s.table && s.table[id].claim.Held? ==> s.table[id].claim.token in s.used)
    && (forall c :: c in s.calls ==> c.id in s.table)
  }

  /** What a step leaves a worker with. */
  lemma WorkBefore(s: Sys, a: Action, w: Worker)
    requires Enabled(s, a) && w in Apply(s, a).workers
    ensures var k' := Apply(s, a).workers[w];
            || (a.Claim? && a.w == w && k'.token == a.token && k'.todo == a.ids && a.ids != [])
            || (w in s.workers && k'.token == s.workers[w].token
                && (k'.todo == s.workers[w].todo || (|s.workers[w].todo| > 1 && k'.todo == s.workers[w].todo[1..])))
  {
  }

  lemma StepOrderly(s: Sys, a: Action)
    requires Orderly(s) && Enabled(s, a)
    ensures Orderly(Apply(s, a))
  {
    var s' := Apply(s, a);
    assert s.table.Keys <= s'.table.Keys && s.used <= s'.used;
    forall w | w in s'.workers ensures OrderlyWork(s'.workers[w], s'.table, s'.used) {
      WorkBefore(s, a, w);
      if a.Claim? && a.w == w {
        assert forall id :: id in a.ids ==> id in Ids(a.ids);
      }
    }
    forall v, w | v in s'.workers && w in s'.workers && v != w ensures s'.workers[v].token != s'.workers[w].token {
      WorkBefore(s, a, v);
      WorkBefore(s, a, w);
    }
  }

  /// Fencing

  ghost predicate ReallyPublished(s: Sys, id: Id) { exists c :: c in s.calls && c.id == id && c.Ok() }

  ghost predicate AcksAreEarned(s: Sys) {
    && (forall w :: w in s.workers && s.workers[w].phase == ToAck && s.workers[w].todo != [] ==>
          ReallyPublished(s, s.workers[w].todo[0]))
    && (forall id :: Published(s.table, id) ==> ReallyPublished(s, id))
  }

  lemma CallsOnlyGrow(s: Sys, a: Action)
    requires Enabled(s, a)
    ensures s.calls <= Apply(s, a).calls
    ensures forall id :: ReallyPublished(s, id) ==> ReallyPublished(Apply(s, a), id)
  {
    var s' := Apply(s, a);
    forall id | ReallyPublished(s, id) ensures ReallyPublished(s', id) {
      var c :| c in s.calls && c.id == id && c.Ok();
      assert c in s'.calls;
    }
  }

  lemma StepAcksEarned(s: Sys, a: Action)
    requires Orderly(s) && AcksAreEarned(s) && Enabled(s, a)
    ensures AcksAreEarned(Apply(s, a))
  {
    CallsOnlyGrow(s, a);
    if a.Publish? {
      var s' := Apply(s, a);
      assert s'.calls[|s.calls|] in s'.calls;
    }
  }

  lemma {:induction false} RunEarned(s: Sys, acts: seq<Action>)
    requires Valid(s, acts) && Orderly(s) && AcksAreEarned(s)
    ensures Orderly(Run(s, acts)) && AcksAreEarned(Run(s, acts))
    decreases |acts|
  {
    if acts == [] {
    } else {
      StepOrderly(s, acts[0]);
      StepAcksEarned(s, acts[0]);
      RunEarned(Apply(s, acts[0]), acts[1..]);
    }
  }

  /** A row marked published was published: some PublishRaw call for it returned nil. */
  lemma PublishedWasSent(clock: int, acts: seq<Action>, id: Id)
    requires Valid(Init(clock), acts) && Published(Run(Init(clock), acts).table, id)
    ensures ReallyPublished(Run(Init(clock), acts), id)
  {
    RunEarned(Init(clock), acts);
  }

  /** Publication is final: later steps keep the row, its mark, its attempts, and nobody claims it. */
  lemma {:induction false} PublishedIsFinal(s: Sys, acts: seq<Action>, id: Id)
    requires Valid(s, acts) && Published(s.table, id)
    ensures Published(Run(s, acts).table, id)
    ensures Run(s, acts).table[id].attempts == s.table[id].attempts
    decreases |acts|
  {
    if acts == [] {
    } else {
      PublishedIsFinal(Apply(s, acts[0]), acts[1..], id);
    }
  }

  /** The token has been drawn and the row is not under it. */
  predicate FencedOff(s: Sys, id: Id, token: Token) {
    id in s.table && token in s.used && s.table[id].claim != Held(token)
  }

  /** The worker that performs a step, and the token it acts under. */
  predicate ActsUnder(s: Sys, a: Action, token: Token) {
    (a.Ack? || a.Release? || a.Publish?) && a.w in s.workers && s.workers[a.w].token == token
  }

  lemma StepKeepsFence(s: Sys, a: Action, id: Id, token: Token)
    requires Enabled(s, a) && FencedOff(s, id, token)
    ensures FencedOff(Apply(s, a), id, token)
    ensures ActsUnder(s, a, token) ==> Apply(s, a).table[id] == s.table[id]
  {
  }

  /** Once a row's token has been replaced, a worker still acting under the old token never changes that
      row again, whatever it or anybody else does in the meantime. */
  lemma {:induction false} FencedWorkerNeverWrites(s: Sys, acts: seq<Action>, id: Id, token: Token, a: Action)
    requires Valid(s, acts) && FencedOff(s, id, token)
    requires Enabled(Run(s, acts), a) && ActsUnder(Run(s, acts), a, token)
    ensures id in Run(s, acts).table && Apply(Run(s, acts), a).table[id] == Run(s, acts).table[id]
    decreases |acts|
  {
    if acts == [] {
      StepKeepsFence(s, a, id, token);
    } else {
      StepKeepsFence(s, acts[0], id, token);
      FencedWorkerNeverWrites(Apply(s, acts[0]), acts[1..], id, token, a);
    }
  }

  /// Publish calls are paid for by attempts

  function CallsFor(calls: seq<PublishCall>, id: Id): nat {
    if calls == [] then 0
    else CallsFor(calls[..|calls| - 1], id) + if calls[|calls| - 1].id == id then 1 else 0
  }

  lemma CallsForSnoc(calls: seq<PublishCall>, c: PublishCall, id: Id)
    ensures CallsFor(calls + [c], id) == CallsFor(calls, id) + if c.id == id then 1 else 0
  {
    assert (calls + [c])[..|calls|] == calls;
  }

  /** The worker still has a publish call to make for the row. */
  predicate WillPublish(k: Work, id: Id) {
    id in (if k.phase == ToPublish || k.todo == [] then k.todo else k.todo[1..])
  }

  ghost function Outstanding(s: Sys, id: Id): set<Worker> {
    set w | w in s.workers && WillPublish(s.workers[w], id)
  }

  ghost predicate Paid(s: Sys, id: Id) {
    if id in s.table then CallsFor(s.calls, id) + |Outstanding(s, id)| <= s.table[id].attempts
    else CallsFor(s.calls, id) == 0 && Outstanding(s, id) == {}
  }

  lemma StepOutstanding(s: Sys, a: Action, id: Id)
    requires Orderly(s) && Enabled(s, a)
    ensures var o, o' := Outstanding(s, id), Outstanding(Apply(s, a), id);
            if a.Claim? && a.seen && id in a.ids then o' == o + {a.w} && a.w !in o
            else if a.Publish? && s.workers[a.w].todo[0] == id then o' == o - {a.w} && a.w in o
            else o' <= o
  {
  }

  lemma StepAttempts(s: Sys, a: Action, id: Id)
    requires Enabled(s, a)
    ensures id in s.table ==>
              && id in Apply(s, a).table
              && Apply(s, a).table[id].attempts == s.table[id].attempts + if a.Claim? && id in a.ids then 1 else 0
    ensures id !in s.table && id in Apply(s, a).table ==> a.Enqueue? && Apply(s, a).table[id].attempts == 0
    ensures id !in s.table && a.Claim? ==> id !in a.ids
    ensures !a.Publish? ==> Apply(s, a).calls == s.calls
  {
    if a.Claim? {
      assert forall i :: i in a.ids <==> i in Ids(a.ids);
    }
  }

  lemma StepPaid(s: Sys, a: Action, id: Id)
    requires Orderly(s) && Enabled(s, a) && Paid(s, id)
    ensures Paid(Apply(s, a), id)
  {
    var s' := Apply(s, a);
    var o, o' := Outstanding(s, id), Outstanding(s', id);
    StepOutstanding(s, a, id);
    StepAttempts(s, a, id);
    if a.Publish? {
      assert s.workers[a.w].todo[0] in s.workers[a.w].todo;
      CallsForSnoc(s.calls, s'.calls[|s.calls|], id);
    }
    if o' <= o {
      SubsetSize(o', o);
    }
  }

  lemma {:induction false} RunPaid(s: Sys, acts: seq<Action>, id: Id)
    requires Valid(s, acts) && Orderly(s) && Paid(s, id)
    ensures Paid(Run(s, acts), id)
    decreases |acts|
  {
    if acts == [] {
    } else {
      StepOrderly(s, acts[0]);
      StepPaid(s, acts[0], id);
      RunPaid(Apply(s, acts[0]), acts[1..], id);
    }
  }

  /** The publish calls made for a row never exceed its attempts counter. */
  lemma CallsWithinAttempts(clock: int, acts: seq<Action>, id: Id)
    requires Valid(Init(clock), acts) && id in Run(Init(clock), acts).table
    ensures CallsFor(Run(Init(clock), acts).calls, id) <= Run(Init(clock), acts).table[id].attempts
  {
    RunPaid(Init(clock), acts, id);
  }

  /** The claims of a run that took the row. */
  ghost function ClaimsOf(acts: seq<Action>, id: Id): nat {
    if acts == [] then 0
    else ClaimsOf(acts[1..], id) + if acts[0].Claim? && id in acts[0].ids then 1 else 0
  }

  lemma {:induction false} RunAttempts(s: Sys, acts: seq<Action>, id: Id)
    requires Valid(s, acts)
    ensures id in s.table ==>
              id in Run(s, acts).table && Run(s, acts).table[id].attempts == s.table[id].attempts + ClaimsOf(acts, id)
    ensures id !in s.table && id in Run(s, acts).table ==> Run(s, acts).table[id].attempts == ClaimsOf(acts, id)
    decreases |acts|
  {
    if acts == [] {
    } else {
      var a := acts[0];
      StepAttempts(s, a, id);
      RunAttempts(Apply(s, a), acts[1..], id);
    }
  }

  /** The attempts counter of a row is the number of claims that took it. */
  lemma AttemptsCountClaims(clock: int, acts: seq<Action>, id: Id)
    requires Valid(Init(clock), acts) && id in Run(Init(clock), acts).table
    ensures Run(Init(clock), acts).table[id].attempts == ClaimsOf(acts, id)
  {
    RunAttempts(Init(clock), acts, id);
  }

  /** A claim whose publisher has crashed ends: once it is more than 30 s old by the claiming host's clock,
      any claim with room for all rows takes the row again. */
  lemma CrashedClaimIsRetaken(s: Sys, first: Action, later: Sys, again: Action, id: Id)
    requires Enabled(s, first) && first.Claim? && id in first.ids
    requires later.table == Apply(s, first).table && Enabled(later, again)
    requires again.Claim? && again.locked == {} && |s.table| <= 100 && again.hostNow - s.clock > 30_000
    ensures id in again.ids
  {
    assert id in Ids(first.ids);
    ClaimMeaning(s.table, Ids(first.ids), first.token, s.clock, id, again.hostNow);
    var t := Apply(s, first).table;
    assert t.Keys == s.table.Keys && |t| == |t.Keys|;
    TakesAllWithRoom(t, again.ids, BATCH, again.hostNow, id);
  }

  /// Exactly once, when nothing is lost and claims are concluded before they go stale

  /** No crash, no lost database call, and a claiming process whose clock is not ahead. */
  predicate Faultless(s: Sys, a: Action) {
    match a
    case Claim(_, _, hostNow, _, _, seen) => seen && hostNow <= s.clock
    case Ack(_, lands) => lands
    case Release(_, lands) => lands
    case Crash(_) => false
    case _ => true
  }

  /** Every claim in progress is younger than the claim age. */
  ghost predicate Prompt(s: Sys) {
    forall w, id :: w in s.workers && id in s.workers[w].todo && id in s.table && s.table[id].claimedAt.At? ==>
      s.clock - s.table[id].claimedAt.time <= 30_000
  }

  ghost predicate FaultlessRun(s: Sys, acts: seq<Action>)
    requires Valid(s, acts)
    decreases |acts|
  {
    Prompt(s) && (acts != [] ==> Faultless(s, acts[0]) && FaultlessRun(Apply(s, acts[0]), acts[1..]))
  }

  function OkCalls(calls: seq<PublishCall>, id: Id): nat {
    if calls == [] then 0
    else
      var last := calls[|calls| - 1];
      OkCalls(calls[..|calls| - 1], id) + if last.id == id && last.Ok() then 1 else 0
  }

  lemma OkCallsSnoc(calls: seq<PublishCall>, c: PublishCall, id: Id)
    ensures OkCalls(calls + [c], id) == OkCalls(calls, id) + if c.id == id && c.Ok() then 1 else 0
  {
    assert (calls + [c])[..|calls|] == calls;
  }

  predicate AtAckOf(s: Sys, w: Worker, id: Id) {
    w in s.workers && s.workers[w].phase == ToAck && s.workers[w].todo != [] && s.workers[w].todo[0] == id
  }

  ghost predicate AwaitsAck(s: Sys, id: Id) {
    exists w :: AtAckOf(s, w, id)
  }

  ghost predicate HeldBySomebody(s: Sys, id: Id) { exists w :: w in s.workers && id in s.workers[w].todo }

  predicate OwnedBy(table: Table, id: Id, token: Token) {
    Owns(table, id, token) && table[id].publishedAt.Null? && table[id].claimedAt.At?
  }

  ghost predicate HoldersOwn(s: Sys) {
    forall w, id :: w in s.workers && id in s.workers[w].todo ==> OwnedBy(s.table, id, s.workers[w].token)
  }

  ghost predicate ClaimsAreHeld(s: Sys) {
    forall id :: id in s.table && s.table[id].publishedAt.Null? && s.table[id].claimedAt.At? ==> HeldBySomebody(s, id)
  }

  ghost predicate CountedOnce(s: Sys, id: Id) {
    OkCalls(s.calls, id) == if Published(s.table, id) || AwaitsAck(s, id) then 1 else 0
  }

  /** Only unclaimed rows are taken: a live claim is never stolen. */
  lemma NothingIsStolen(s: Sys, a: Action, id: Id)
    requires HoldersOwn(s) && ClaimsAreHeld(s) && Prompt(s) && Enabled(s, a) && Faultless(s, a)
    requires a.Claim? && id in a.ids
    ensures id in s.table && s.table[id].publishedAt.Null? && s.table[id].claimedAt.Null? && !HeldBySomebody(s, id)
  {
    assert id in Ids(a.ids);
  }

  /** A row is in the hands of one worker at most. */
  lemma OneHolder(s: Sys, v: Worker, w: Worker, id: Id)
    requires Orderly(s) && HoldersOwn(s) && v in s.workers && w in s.workers
    requires id in s.workers[v].todo && id in s.workers[w].todo
    ensures v == w
  {
  }

  /** Who holds a row after a step held it before, unless the step claimed it; and the row a worker has
      just concluded is not among those it still holds. */
  lemma HoldersStep(s: Sys, a: Action, w: Worker, id: Id)
    requires Orderly(s) && Enabled(s, a) && w in Apply(s, a).workers && id in Apply(s, a).workers[w].todo
    ensures (a.Claim? && w == a.w && id in a.ids && Apply(s, a).workers[w].token == a.token)
            || (w in s.workers && id in s.workers[w].todo && Apply(s, a).workers[w].token == s.workers[w].token
                && ((a.Ack? || a.Release?) && w == a.w ==> id != s.workers[w].todo[0]))
  {
  }

  lemma StepHoldersOwn(s: Sys, a: Action)
    requires Orderly(s) && HoldersOwn(s) && ClaimsAreHeld(s) && Prompt(s) && Enabled(s, a) && Faultless(s, a)
    ensures HoldersOwn(Apply(s, a))
  {
    var s' := Apply(s, a);
    forall w, id | w in s'.workers && id in s'.workers[w].todo
      ensures OwnedBy(s'.table, id, s'.workers[w].token)
    {
      HoldersStep(s, a, w, id);
      if a.Claim? && id in a.ids {
        NothingIsStolen(s, a, id);
        assert s'.table[id].claim == Held(a.token) && w == a.w;
      } else {
        if (a.Ack? || a.Release?) && s.workers[a.w].todo[0] == id {
          OneHolder(s, a.w, w, id);
        }
        assert s'.table[id] == s.table[id];
      }
    }
  }

  /** A faultless step takes a row from its holder only by publishing or releasing it. */
  lemma HolderKeeps(s: Sys, a: Action, w: Worker, id: Id)
    requires Orderly(s) && HoldersOwn(s) && Enabled(s, a) && Faultless(s, a)
    requires w in s.workers && id in s.workers[w].todo
    requires id in Apply(s, a).table && Apply(s, a).table[id].publishedAt.Null? && Apply(s, a).table[id].claimedAt.At?
    ensures w in Apply(s, a).workers && id in Apply(s, a).workers[w].todo
  {
    assert OwnedBy(s.table, id, s.workers[w].token);
  }

  lemma StepClaimsHeld(s: Sys, a: Action)
    requires Orderly(s) && HoldersOwn(s) && ClaimsAreHeld(s) && Enabled(s, a) && Faultless(s, a)
    ensures ClaimsAreHeld(Apply(s, a))
  {
    var s' := Apply(s, a);
    forall id | id in s'.table && s'.table[id].publishedAt.Null? && s'.table[id].claimedAt.At?
      ensures HeldBySomebody(s', id)
    {
      if a.Claim? && id in a.ids {
        assert id in s'.workers[a.w].todo;
      } else {
        assert HeldBySomebody(s, id);
        var w :| w in s.workers && id in s.workers[w].todo;
        HolderKeeps(s, a, w, id);
      }
    }
  }

  lemma AckBegins(s: Sys, a: Action, id: Id, w: Worker)
    requires Enabled(s, a) && AtAckOf(Apply(s, a), w, id)
    ensures (a.Publish? && a.outcome.Confirmed? && s.workers[a.w].todo[0] == id) || (AtAckOf(s, w, id) && !((a.Ack? || a.Crash?) && a.w == w))
  {
  }

  lemma AckPersists(s: Sys, a: Action, id: Id, w: Worker)
    requires Enabled(s, a) && AtAckOf(s, w, id) && !((a.Ack? || a.Crash?) && a.w == w)
    ensures AtAckOf(Apply(s, a), w, id)
  {
  }

  lemma AwaitsStep(s: Sys, a: Action, id: Id)
    requires Orderly(s) && HoldersOwn(s) && Enabled(s, a) && Faultless(s, a)
    ensures AwaitsAck(Apply(s, a), id) <==>
            (a.Publish? && a.outcome.Confirmed? && s.workers[a.w].todo[0] == id)
            || (AwaitsAck(s, id) && !(a.Ack? && s.workers[a.w].todo[0] == id))
  {
    var s' := Apply(s, a);
    if a.Ack? {
      forall v | v in s.workers && id in s.workers[v].todo && id in s.workers[a.w].todo ensures v == a.w {
        OneHolder(s, v, a.w, id);
      }
    }
    if AwaitsAck(s', id) {
      var w :| AtAckOf(s', w, id);
      AckBegins(s, a, id, w);
    }
    if a.Publish? && a.outcome.Confirmed? && s.workers[a.w].todo[0] == id {
      assert AtAckOf(s', a.w, id);
    } else if AwaitsAck(s, id) && !(a.Ack? && s.workers[a.w].todo[0] == id) {
      var w :| AtAckOf(s, w, id);
      AckPersists(s, a, id, w);
    }
  }

  lemma StepCountedOnce(s: Sys, a: Action, id: Id)
    requires Orderly(s) && HoldersOwn(s) && CountedOnce(s, id) && Enabled(s, a) && Faultless(s, a)
    ensures CountedOnce(Apply(s, a), id)
  {
    AwaitsStep(s, a, id);
    if a.Publish? {
      var k := s.workers[a.w];
      assert k.todo[0] in k.todo && OwnedBy(s.table, k.todo[0], k.token);
      OkCallsSnoc(s.calls, PublishCall(k.todo[0], k.token, a.outcome), id);
      if k.todo[0] == id && AwaitsAck(s, id) {
        var w :| AtAckOf(s, w, id);
        OneHolder(s, a.w, w, id);
      }
    } else if a.Ack? && s.workers[a.w].todo[0] == id {
      assert AtAckOf(s, a.w, id);
      assert id in s.workers[a.w].todo && OwnedBy(s.table, id, s.workers[a.w].token);
    }
  }

  lemma {:induction false} RunCountedOnce(s: Sys, acts: seq<Action>, id: Id)
    requires Valid(s, acts) && FaultlessRun(s, acts)
    requires Orderly(s) && HoldersOwn(s) && ClaimsAreHeld(s) && CountedOnce(s, id)
    ensures CountedOnce(Run(s, acts), id) && ClaimsAreHeld(Run(s, acts))
    decreases |acts|
  {
    if acts == [] {
    } else {
      StepOrderly(s, acts[0]);
      StepHoldersOwn(s, acts[0]);
      StepClaimsHeld(s, acts[0]);
      StepCountedOnce(s, acts[0], id);
      RunCountedOnce(Apply(s, acts[0]), acts[1..], id);
    }
  }

  /** The records of the row the broker has stored. */
  function StoredCalls(calls: seq<PublishCall>, id: Id): nat {
    if calls == [] then 0
    else
      var last := calls[|calls| - 1];
      StoredCalls(calls[..|calls| - 1], id) + if last.id == id && last.Stored() then 1 else 0
  }

  ghost predicate StoredBehindError(calls: seq<PublishCall>, id: Id) {
    exists i :: 0 <= i < |calls| && calls[i].id == id && calls[i].outcome.StoredUnseen?
  }

  /** The broker has more records of a row than calls returned nil iff some call erred after storing. */
  lemma {:induction false} StoredMoreIff(calls: seq<PublishCall>, id: Id)
    ensures OkCalls(calls, id) <= StoredCalls(calls, id)
    ensures OkCalls(calls, id) < StoredCalls(calls, id) <==> StoredBehindError(calls, id)
    decreases |calls|
  {
    if calls == [] {
    } else {
      var n := |calls| - 1;
      StoredMoreIff(calls[..n], id);
      if StoredBehindError(calls[..n], id) {
        var i :| 0 <= i < n && calls[..n][i].id == id && calls[..n][i].outcome.StoredUnseen?;
        assert calls[i] == calls[..n][i];
      }
      if StoredBehindError(calls, id) && !(calls[n].id == id && calls[n].outcome.StoredUnseen?) {
        var i :| 0 <= i < |calls| && calls[i].id == id && calls[i].outcome.StoredUnseen?;
        assert calls[..n][i] == calls[i];
      }
    }
  }

  /** In a faultless run with prompt claims no row has two publish calls that return nil, a row marked
      published has exactly one, and when no publisher is at work every row is either that or free to be
      claimed without ever having had one. Failing publishes are allowed; the broker then holds exactly one
      record of a published row iff no failing call had stored it after all. */
  lemma ExactlyOnce(clock: int, acts: seq<Action>, id: Id)
    requires Valid(Init(clock), acts) && FaultlessRun(Init(clock), acts)
    ensures var s := Run(Init(clock), acts);
            && OkCalls(s.calls, id) <= 1
            && (Published(s.table, id) ==>
                  && OkCalls(s.calls, id) == 1
                  && (StoredCalls(s.calls, id) == 1 <==> !StoredBehindError(s.calls, id)))
            && (s.workers == map[] && id in s.table && !Published(s.table, id) ==>
                  OkCalls(s.calls, id) == 0 && s.table[id].claimedAt.Null?)
  {
    RunCountedOnce(Init(clock), acts, id);
    StoredMoreIff(Run(Init(clock), acts).calls, id);
  }
}
