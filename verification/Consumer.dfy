/** Consumer.Run of apps/api/internal/kafka/consumer.go as a protocol: any number of workers of any
    consumer, any fetch order and redelivery, store errors, crashes and a clock. Times are ms. */
module Consumer {
  import opened Redis
  import opened DedupKeys

  const LEASE_TTL := 30_000
  const MARKER_TTL := 86_400_000

  /** A fetched message: the consumer it was fetched by, its offset, and its event id if it parses. */
  datatype Msg = Msg(consumer: string, offset: nat, event: EventId)

  datatype EventId = Unparseable | Event(id: string)

  type Worker = nat

  /** Where a worker is in the loop body. */
  datatype Pc =
    | Idle
    | Fetched(m: Msg)
    | Unclaimed(m: Msg)
    | Handling(m: Msg, token: string, since: int)
    | HandlerFailed(m: Msg, token: string, since: int)
    | HandlerOk(m: Msg, token: string, since: int)
    | CompleteFailed(m: Msg, token: string, since: int)
    | Completed(m: Msg, token: string, since: int)
    | Committing(m: Msg)
  {
    /** Between winning the lease and trying to release it. */
    predicate InSection() {
      Handling? || HandlerFailed? || HandlerOk? || CompleteFailed? || Completed?
    }
  }

  datatype Sys = Sys(
    clock: int,
    store: map<Key, Entry>,
    workers: map<Worker, Pc>,
    tokens: set<string>,          // every lease token drawn so far
    handled: set<(string, string)>, // (consumer, event id) of every handler call that returned nil
    commits: seq<Msg>)

  function Init(clock: int): Sys { Sys(clock, map[], map[], {}, {}, []) }

  function At(s: Sys, w: Worker): Pc { if w in s.workers then s.workers[w] else Idle }

  function Goto(s: Sys, w: Worker, pc: Pc): Sys { s.(workers := s.workers[w := pc]) }

  predicate HasEvent(pc: Pc) { !pc.Idle? && pc.m.event.Event? }

  function MarkerOf(m: Msg): Key
    requires m.event.Event?
  {
    Marker(m.consumer, m.event.id)
  }

  function LeaseOf(m: Msg): Key
    requires m.event.Event?
  {
    Lease(m.consumer, m.event.id)
  }

  function IdOf(m: Msg): (string, string)
    requires m.event.Event?
  {
    (m.consumer, m.event.id)
  }

  /** A store call may work, fail without effect, or take effect although the caller sees an error. */
  datatype Fault = NoFault | Lost | Unseen

  datatype Action =
    | Tick(d: nat)
    | Fetch(w: Worker, msg: Msg)
    | Skip(w: Worker)                                // unparseable: straight to the commit
    | Check(w: Worker, fails: bool)
    | Claim(w: Worker, drawn: string, fault: Fault)
    | Return(w: Worker, ok: bool)
    | Complete(w: Worker, fault: Fault)
    | Release(w: Worker, fault: Fault)
    | Commit(w: Worker)
    | Crash(w: Worker)

  predicate Enabled(s: Sys, a: Action) {
    match a
    case Tick(_) => true
    case Fetch(w, msg) => At(s, w).Idle? && msg.consumer in WIRED
    case Skip(w) => At(s, w).Fetched? && At(s, w).m.event.Unparseable?
    case Check(w, _) => At(s, w).Fetched? && At(s, w).m.event.Event?
    case Claim(w, drawn, _) => At(s, w).Unclaimed? && At(s, w).m.event.Event? && drawn !in s.tokens
    case Return(w, _) => At(s, w).Handling? && At(s, w).m.event.Event?
    case Complete(w, _) => At(s, w).HandlerOk? && At(s, w).m.event.Event?
    case Release(w, _) =>
      (At(s, w).HandlerFailed? || At(s, w).CompleteFailed? || At(s, w).Completed?) && At(s, w).m.event.Event?
    case Commit(w) => At(s, w).Committing?
    case Crash(_) => true
  }

  function Apply(s: Sys, a: Action): Sys
    requires Enabled(s, a)
  {
    match a
    case Tick(d) => s.(clock := s.clock + d)
    case Fetch(w, msg) => Goto(s, w, Fetched(msg))
    case Skip(w) => Goto(s, w, Committing(At(s, w).m))
    case Check(w, fails) =>
      var m := At(s, w).m;
      Goto(s, w, if fails then Idle
                 else if Live(s.store, MarkerOf(m), s.clock) then Committing(m)
                 else Unclaimed(m))
    case Claim(w, drawn, fault) =>
      var m := At(s, w).m;
      var free := !Live(s.store, LeaseOf(m), s.clock);
      var store := if free && fault != Lost then Put(s.store, LeaseOf(m), drawn, LEASE_TTL, s.clock) else s.store;
      Goto(s, w, if free && fault == NoFault then Handling(m, drawn, s.clock) else Idle)
        .(store := store, tokens := s.tokens + {drawn})
    case Return(w, ok) =>
      var pc := At(s, w);
      if ok then Goto(s, w, HandlerOk(pc.m, pc.token, pc.since)).(handled := s.handled + {IdOf(pc.m)})
      else Goto(s, w, HandlerFailed(pc.m, pc.token, pc.since))
    case Complete(w, fault) =>
      var pc := At(s, w);
      var store := if fault != Lost then Put(s.store, MarkerOf(pc.m), "1", MARKER_TTL, s.clock) else s.store;
      Goto(s, w, if fault == NoFault then Completed(pc.m, pc.token, pc.since)
                 else CompleteFailed(pc.m, pc.token, pc.since)).(store := store)
    case Release(w, fault) =>
      var pc := At(s, w);
      var store := if fault != Lost then DeleteIf(s.store, LeaseOf(pc.m), pc.token, s.clock) else s.store;
      Goto(s, w, if pc.Completed? then Committing(pc.m) else Idle).(store := store)
    case Commit(w) => Goto(s, w, Idle).(commits := s.commits + [At(s, w).m])
    case Crash(w) => Goto(s, w, Idle)
  }

  predicate Valid(s: Sys, acts: seq<Action>)
    decreases |acts|
  {
    acts == [] || (Enabled(s, acts[0]) && Valid(Apply(s, acts[0]), acts[1..]))
  }

  function Run(s: Sys, acts: seq<Action>): Sys
    requires Valid(s, acts)
    decreases |acts|
  {
    if acts == [] then s else Run(Apply(s, acts[0]), acts[1..])
  }

  /// Commit safety

  predicate CommitOk(s: Sys, m: Msg) { m.event.Unparseable? || IdOf(m) in s.handled }

  ghost predicate Safe(s: Sys) {
    && (forall k :: k in s.store && k.Marker? ==> (k.consumer, k.event) in s.handled)
    && (forall w :: w in s.workers && (s.workers[w].HandlerOk? || s.workers[w].Completed? || s.workers[w].Committing?) ==>
          CommitOk(s, s.workers[w].m))
    && (forall m :: m in s.commits ==> CommitOk(s, m))
  }

  lemma StepSafe(s: Sys, a: Action)
    requires Safe(s) && Enabled(s, a)
    ensures Safe(Apply(s, a)) && s.handled <= Apply(s, a).handled
  {
  }

  lemma {:induction false} RunSafe(s: Sys, acts: seq<Action>)
    requires Safe(s) && Valid(s, acts)
    ensures Safe(Run(s, acts))
    decreases |acts|
  {
    if acts == [] {
    } else {
      StepSafe(s, acts[0]);
      RunSafe(Apply(s, acts[0]), acts[1..]);
    }
  }

  /** A handler call for the event `id` returned nil somewhere in the run. */
  ghost predicate Returned(s: Sys, acts: seq<Action>, id: (string, string))
    requires Valid(s, acts)
    decreases |acts|
  {
    acts != [] &&
    ((acts[0].Return? && acts[0].ok && IdOf(At(s, acts[0].w).m) == id) || Returned(Apply(s, acts[0]), acts[1..], id))
  }

  lemma {:induction false} HandledMeansReturned(s: Sys, acts: seq<Action>, id: (string, string))
    requires Valid(s, acts) && id !in s.handled
    ensures id in Run(s, acts).handled <==> Returned(s, acts, id)
    decreases |acts|
  {
    if acts == [] {
    } else {
      var s' := Apply(s, acts[0]);
      if id in s'.handled {
        HandledGrows(s', acts[1..]);
      } else {
        HandledMeansReturned(s', acts[1..], id);
      }
    }
  }

  lemma {:induction false} HandledGrows(s: Sys, acts: seq<Action>)
    requires Valid(s, acts)
    ensures s.handled <= Run(s, acts).handled
    decreases |acts|
  {
    if acts == [] {
    } else {
      HandledGrows(Apply(s, acts[0]), acts[1..]);
    }
  }

  /** An offset is committed only for a message that does not parse or whose event some handler call
      has already completed without error. */
  lemma CommitSafety(clock: int, acts: seq<Action>, m: Msg)
    requires Valid(Init(clock), acts)
    requires m in Run(Init(clock), acts).commits
    ensures m.event.Unparseable? || Returned(Init(clock), acts, IdOf(m))
  {
    RunSafe(Init(clock), acts);
    if m.event.Event? {
      HandledMeansReturned(Init(clock), acts, IdOf(m));
    }
  }

  /// Lease exclusion

  /** Every claimed section in progress is at most `d` old. */
  ghost predicate Prompt(s: Sys, d: int) {
    forall w :: w in s.workers && s.workers[w].InSection() ==> s.clock - s.workers[w].since <= d
  }

  /** No claimed section of the run lasts longer than `d`. */
  ghost predicate PromptRun(s: Sys, acts: seq<Action>, d: int)
    requires Valid(s, acts)
    decreases |acts|
  {
    Prompt(s, d) && (acts != [] ==> PromptRun(Apply(s, acts[0]), acts[1..], d))
  }

  /** Tokens are drawn once: no two sections share one, and no lease holds an undrawn one. */
  ghost predicate TokensDrawn(s: Sys) {
    && (forall w :: w in s.workers && s.workers[w].InSection() ==> s.workers[w].token in s.tokens && HasEvent(s.workers[w]))
    && (forall k :: k in s.store && k.Lease? ==> s.store[k].value in s.tokens)
  }

  ghost predicate TokensDistinct(s: Sys) {
    && TokensDrawn(s)
    && (forall v, w :: v in s.workers && w in s.workers && v != w && s.workers[v].InSection() && s.workers[w].InSection() ==>
          s.workers[v].token != s.workers[w].token)
  }

  lemma StepTokensDrawn(s: Sys, a: Action)
    requires TokensDrawn(s) && Enabled(s, a)
    ensures TokensDrawn(Apply(s, a))
  {
  }

  /** A section after a step was a section under the same token before, unless the step drew the token. */
  lemma SectionBefore(s: Sys, a: Action, w: Worker)
    requires Enabled(s, a) && w in Apply(s, a).workers && Apply(s, a).workers[w].InSection()
    ensures (w in s.workers && s.workers[w].InSection() && s.workers[w].token == Apply(s, a).workers[w].token)
            || (a.Claim? && a.w == w && Apply(s, a).workers[w].token == a.drawn && a.drawn !in s.tokens)
  {
  }

  lemma StepTokensDistinct(s: Sys, a: Action)
    requires TokensDistinct(s) && Enabled(s, a)
    ensures TokensDistinct(Apply(s, a))
  {
    var s' := Apply(s, a);
    StepTokensDrawn(s, a);
    forall v, w | v in s'.workers && w in s'.workers && v != w && s'.workers[v].InSection() && s'.workers[w].InSection()
      ensures s'.workers[v].token != s'.workers[w].token
    {
      SectionBefore(s, a, v);
      SectionBefore(s, a, w);
    }
  }

  ghost predicate SectionsHoldLeases(s: Sys) {
    forall w :: w in s.workers && s.workers[w].InSection() && HasEvent(s.workers[w]) ==>
      LeaseOf(s.workers[w].m) in s.store &&
      s.store[LeaseOf(s.workers[w].m)] == Entry(s.workers[w].token, s.workers[w].since + LEASE_TTL)
  }

  lemma StepKeepsLeases(s: Sys, a: Action)
    requires TokensDistinct(s) && SectionsHoldLeases(s) && Prompt(s, LEASE_TTL) && Enabled(s, a)
    ensures SectionsHoldLeases(Apply(s, a))
  {
    if a.Release? {
      var pc := At(s, a.w);
      assert s.workers[a.w] == pc;
    }
  }

  /** Two workers in a section for the same event of the same consumer. */
  ghost predicate Overlap(s: Sys, v: Worker, w: Worker) {
    && v != w && v in s.workers && w in s.workers
    && s.workers[v].InSection() && s.workers[w].InSection()
    && HasEvent(s.workers[v]) && HasEvent(s.workers[w])
    && IdOf(s.workers[v].m) == IdOf(s.workers[w].m)
  }

  lemma {:induction false} RunExcludes(s: Sys, acts: seq<Action>, v: Worker, w: Worker)
    requires Valid(s, acts) && TokensDistinct(s) && SectionsHoldLeases(s) && PromptRun(s, acts, LEASE_TTL)
    ensures !Overlap(Run(s, acts), v, w)
    decreases |acts|
  {
    if acts == [] {
    } else {
      StepTokensDistinct(s, acts[0]);
      StepKeepsLeases(s, acts[0]);
      RunExcludes(Apply(s, acts[0]), acts[1..], v, w);
    }
  }

  /** While every claimed section ends within its 30 s lease, no event is handled by two workers at
      once. */
  lemma LeaseExclusion(clock: int, acts: seq<Action>, v: Worker, w: Worker)
    requires Valid(Init(clock), acts) && PromptRun(Init(clock), acts, 30_000)
    ensures !Overlap(Run(Init(clock), acts), v, w)
  {
    RunExcludes(Init(clock), acts, v, w);
  }

  lemma RunExtend(s: Sys, acts: seq<Action>, a: Action)
    requires Valid(s, acts) && Enabled(Run(s, acts), a)
    ensures Valid(s, acts + [a]) && Run(s, acts + [a]) == Apply(Run(s, acts), a)
  {
    assert [a][1..] == [];
    assert Valid(Run(s, acts), [a]) && Run(Run(s, acts), [a]) == Apply(Run(s, acts), a);
    RunConcat(s, acts, [a]);
  }

  function Attempt(w: Worker, m: Msg, token: string): seq<Action> {
    [Fetch(w, m), Check(w, false), Claim(w, token, NoFault)]
  }

  /** An idle worker that fetches an event with no live marker or lease starts handling it. */
  lemma AttemptStarts(s: Sys, w: Worker, m: Msg, token: string)
    requires At(s, w).Idle? && m.consumer in WIRED && m.event.Event? && token !in s.tokens
    requires !Live(s.store, MarkerOf(m), s.clock) && !Live(s.store, LeaseOf(m), s.clock)
    ensures Valid(s, Attempt(w, m, token))
    ensures Run(s, Attempt(w, m, token)) ==
            s.(workers := s.workers[w := Handling(m, token, s.clock)],
               store := Put(s.store, LeaseOf(m), token, LEASE_TTL, s.clock),
               tokens := s.tokens + {token})
  {
    var fetch, check, claim := Fetch(w, m), Check(w, false), Claim(w, token, NoFault);
    RunExtend(s, [], fetch);
    RunExtend(s, [] + [fetch], check);
    RunExtend(s, [] + [fetch] + [check], claim);
    assert [] + [fetch] + [check] + [claim] == Attempt(w, m, token);
    assert Run(s, Attempt(w, m, token)).workers == s.workers[w := Handling(m, token, s.clock)];
  }

  lemma {:induction false} RunConcat(s: Sys, first: seq<Action>, second: seq<Action>)
    requires Valid(s, first) && Valid(Run(s, first), second)
    ensures Valid(s, first + second) && Run(s, first + second) == Run(Run(s, first), second)
    decreases |first|
  {
    if first == [] {
      assert first + second == second;
    } else {
      assert (first + second)[1..] == first[1..] + second;
      RunConcat(Apply(s, first[0]), first[1..], second);
    }
  }

  /** The run in which worker 0 handles the event, outlives its lease, and worker 1 handles it too. */
  function Overtaking(m: Msg, late: nat): seq<Action> {
    Attempt(0, m, "a") + ([Tick(late)] + Attempt(1, m, "b"))
  }

  /** The premise is needed: any event's handler that outlives its lease is overtaken by a second
      worker, in a run none of whose sections lasts any longer. */
  lemma SlowHandlerIsOvertaken(clock: int, m: Msg, late: nat)
    requires m.consumer in WIRED && m.event.Event? && late > 30_000
    ensures Valid(Init(clock), Overtaking(m, late))
    ensures Overlap(Run(Init(clock), Overtaking(m, late)), 0, 1)
    ensures PromptRun(Init(clock), Overtaking(m, late), late)
  {
    var s := Init(clock);
    AttemptStarts(s, 0, m, "a");
    AttemptPrompt(s, 0, m, "a", late);
    var s1 := Run(s, Attempt(0, m, "a"));
    var s2 := Apply(s1, Tick(late));
    AttemptStarts(s2, 1, m, "b");
    AttemptPrompt(s2, 1, m, "b", late);
    assert ([Tick(late)] + Attempt(1, m, "b"))[1..] == Attempt(1, m, "b");
    assert Valid(s1, [Tick(late)] + Attempt(1, m, "b"));
    RunConcat(s, Attempt(0, m, "a"), [Tick(late)] + Attempt(1, m, "b"));
    PromptConcat(s, Attempt(0, m, "a"), [Tick(late)] + Attempt(1, m, "b"), late);
  }

  lemma {:induction false} PromptConcat(s: Sys, first: seq<Action>, second: seq<Action>, d: int)
    requires Valid(s, first) && Valid(Run(s, first), second) && Valid(s, first + second)
    requires PromptRun(s, first, d) && PromptRun(Run(s, first), second, d)
    ensures PromptRun(s, first + second, d)
    decreases |first|
  {
    if first == [] {
      assert first + second == second;
    } else {
      assert (first + second)[1..] == first[1..] + second;
      PromptConcat(Apply(s, first[0]), first[1..], second, d);
    }
  }

  /** Starting a section takes no time. */
  lemma AttemptPrompt(s: Sys, w: Worker, m: Msg, token: string, d: nat)
    requires At(s, w).Idle? && m.consumer in WIRED && m.event.Event? && token !in s.tokens && Prompt(s, d)
    requires !Live(s.store, MarkerOf(m), s.clock) && !Live(s.store, LeaseOf(m), s.clock)
    ensures Valid(s, Attempt(w, m, token)) && PromptRun(s, Attempt(w, m, token), d)
  {
    var fetch, check, claim := Fetch(w, m), Check(w, false), Claim(w, token, NoFault);
    var s1 := Apply(s, fetch);
    assert Attempt(w, m, token)[1..] == [check, claim] && [check, claim][1..] == [claim] && [claim][1..] == [];
    var s2 := Apply(s1, check);
    var s3 := Apply(s2, claim);
    assert Prompt(s1, d) && Prompt(s2, d) && Prompt(s3, d);
    assert PromptRun(s3, [], d) && PromptRun(s2, [claim], d) && PromptRun(s1, [check, claim], d);
  }

  lemma {:induction false} PromptLonger(s: Sys, acts: seq<Action>, d: int, longer: int)
    requires Valid(s, acts) && PromptRun(s, acts, d) && d <= longer
    ensures PromptRun(s, acts, longer)
    decreases |acts|
  {
    if acts == [] {
    } else {
      PromptLonger(Apply(s, acts[0]), acts[1..], d, longer);
    }
  }

  /** Two workers are in sections for one event at the end of the run, and no section has lasted longer
      than `d`. */
  ghost predicate OverlapsWithin(clock: int, acts: seq<Action>, v: Worker, w: Worker, d: int) {
    Valid(Init(clock), acts) && PromptRun(Init(clock), acts, d) && Overlap(Run(Init(clock), acts), v, w)
  }

  /** Sections of at most `d` milliseconds exclude each other, in every run, iff `d` is within the lease. */
  lemma ExclusionIff(d: nat)
    ensures (forall clock, acts, v, w :: !OverlapsWithin(clock, acts, v, w, d)) <==> d <= 30_000
  {
    if d <= LEASE_TTL {
      forall clock, acts, v, w ensures !OverlapsWithin(clock, acts, v, w, d) {
        if Valid(Init(clock), acts) && PromptRun(Init(clock), acts, d) {
          PromptLonger(Init(clock), acts, d, LEASE_TTL);
          LeaseExclusion(clock, acts, v, w);
        }
      }
    } else {
      var m := Msg("message_created", 0, Event("e"));
      SlowHandlerIsOvertaken(0, m, d);
      assert OverlapsWithin(0, Overtaking(m, d), 0, 1, d);
    }
  }

  /** Promptness or not, the only step that ends a live lease is the release by the worker whose
      token it holds. */
  lemma NeverDeletesForeignLease(s: Sys, a: Action, k: Key)
    requires Enabled(s, a) && k.Lease? && Live(s.store, k, s.clock)
    ensures var s' := Apply(s, a);
            || (k in s'.store && s'.store[k] == s.store[k])
            || (a.Release? && LeaseOf(At(s, a.w).m) == k && At(s, a.w).token == s.store[k].value)
  {
  }

  /// The processed marker

  ghost predicate MarkersDated(s: Sys) {
    forall k :: k in s.store && k.Marker? ==> s.store[k].expiresAt <= s.clock + MARKER_TTL
  }

  lemma {:induction false} RunDated(s: Sys, acts: seq<Action>)
    requires Valid(s, acts) && MarkersDated(s)
    ensures MarkersDated(Run(s, acts))
    decreases |acts|
  {
    if acts == [] {
    } else {
      RunDated(Apply(s, acts[0]), acts[1..]);
    }
  }

  /** A marker outlives everything the workers do until its own expiry. */
  lemma {:induction false} MarkerPersists(s: Sys, acts: seq<Action>, k: Key)
    requires Valid(s, acts) && MarkersDated(s) && k.Marker? && k in s.store
    ensures k in Run(s, acts).store && s.store[k].expiresAt <= Run(s, acts).store[k].expiresAt
    decreases |acts|
  {
    if acts == [] {
    } else {
      MarkerPersists(Apply(s, acts[0]), acts[1..], k);
    }
  }

  /** Once a marker is stored, every iteration that checks it before it expires goes straight to the
      commit: the handler is not called. */
  lemma MarkedEventNotHandledAgain(clock: int, before: seq<Action>, after: seq<Action>, w: Worker)
    requires Valid(Init(clock), before) && Valid(Run(Init(clock), before), after)
    requires var s, s' := Run(Init(clock), before), Run(Run(Init(clock), before), after);
             Enabled(s', Check(w, false)) && MarkerOf(At(s', w).m) in s.store
             && s'.clock <= s.store[MarkerOf(At(s', w).m)].expiresAt
    ensures var s' := Run(Run(Init(clock), before), after);
            At(Apply(s', Check(w, false)), w) == Committing(At(s', w).m)
  {
    var s := Run(Init(clock), before);
    RunDated(Init(clock), before);
    MarkerPersists(s, after, MarkerOf(At(Run(s, after), w).m));
  }

  /** Whoever is past the marker's store call, or about to commit, has its marker stored. */
  ghost predicate Marked(s: Sys) {
    && (forall w :: w in s.workers && (s.workers[w].Completed? || s.workers[w].Committing?) ==>
          s.workers[w].m.event.Event? ==> MarkerOf(s.workers[w].m) in s.store)
    && (forall m :: m in s.commits && m.event.Event? ==> MarkerOf(m) in s.store)
  }

  lemma StepMarked(s: Sys, a: Action)
    requires Marked(s) && Enabled(s, a)
    ensures Marked(Apply(s, a))
  {
    forall k | k in s.store && k.Marker? ensures k in Apply(s, a).store {
    }
  }

  lemma {:induction false} RunMarked(s: Sys, acts: seq<Action>)
    requires Valid(s, acts) && Marked(s)
    ensures Marked(Run(s, acts))
    decreases |acts|
  {
    if acts == [] {
    } else {
      StepMarked(s, acts[0]);
      RunMarked(Apply(s, acts[0]), acts[1..]);
    }
  }

  /** Every committed message that parses has its processed marker in the store. */
  lemma CommittedIsMarked(clock: int, acts: seq<Action>, m: Msg)
    requires Valid(Init(clock), acts)
    requires m in Run(Init(clock), acts).commits && m.event.Event?
    ensures MarkerOf(m) in Run(Init(clock), acts).store
  {
    RunMarked(Init(clock), acts);
  }

  /** For 24 h after its completion reached the store, an event that is fetched again goes from the marker
      check straight to the commit, whatever all workers did in between. */
  lemma CompletedNotHandledForADay(clock: int, before: seq<Action>, w: Worker, fault: Fault, after: seq<Action>, v: Worker)
    requires Valid(Init(clock), before)
    requires var s := Run(Init(clock), before);
             Enabled(s, Complete(w, fault)) && fault != Lost && Valid(Apply(s, Complete(w, fault)), after)
    requires var s := Run(Init(clock), before);
             var s' := Run(Apply(s, Complete(w, fault)), after);
             && Enabled(s', Check(v, false)) && IdOf(At(s', v).m) == IdOf(At(s, w).m)
             && s'.clock <= s.clock + 86_400_000
    ensures var s' := Run(Apply(Run(Init(clock), before), Complete(w, fault)), after);
            At(Apply(s', Check(v, false)), v) == Committing(At(s', v).m)
  {
    var s := Run(Init(clock), before);
    var s1 := Apply(s, Complete(w, fault));
    RunDated(Init(clock), before);
    MarkerPersists(s1, after, MarkerOf(At(s, w).m));
  }

  /// What faults do

  /** A store call takes effect unless it is lost; its worker goes on only if it also sees the result. */
  lemma StoreCallMeaning(s: Sys, a: Action, k: Key)
    requires Enabled(s, a) && (a.Claim? || a.Complete? || a.Release?)
    ensures var m, s', pc' := At(s, a.w).m, Apply(s, a), At(Apply(s, a), a.w);
            match a
            case Claim(_, drawn, fault) =>
              var won := !Live(s.store, LeaseOf(m), s.clock);
              && (k == LeaseOf(m) && won && fault != Lost ==> k in s'.store && s'.store[k] == Entry(drawn, s.clock + 30_000))
              && (k != LeaseOf(m) || !won || fault == Lost ==>
                    (k in s'.store <==> k in s.store) && (k in s.store ==> s'.store[k] == s.store[k]))
              && (pc'.Handling? <==> won && fault == NoFault) && (pc'.Handling? || pc'.Idle?)
            case Complete(_, fault) =>
              && (k == MarkerOf(m) && fault != Lost ==> k in s'.store && s'.store[k].expiresAt == s.clock + 86_400_000)
              && (k != MarkerOf(m) || fault == Lost ==>
                    (k in s'.store <==> k in s.store) && (k in s.store ==> s'.store[k] == s.store[k]))
              && (pc'.Completed? <==> fault == NoFault) && (pc'.Completed? || pc'.CompleteFailed?)
            case Release(_, fault) =>
              var own := Live(s.store, LeaseOf(m), s.clock) && s.store[LeaseOf(m)].value == At(s, a.w).token;
              && (k in s'.store <==> k in s.store && !(k == LeaseOf(m) && own && fault != Lost))
              && (pc'.Committing? <==> At(s, a.w).Completed?) && (pc'.Committing? || pc'.Idle?)
            case _ => true
  {
  }

  /** A crashed worker starts over; the store, the commits and everybody else stay as they are, and time
      passes only when it is said to. */
  lemma CrashMeaning(s: Sys, w: Worker, v: Worker, d: nat)
    ensures var s', later := Apply(s, Crash(w)), Apply(s, Tick(d));
            && At(s', w).Idle? && (v != w ==> At(s', v) == At(s, v))
            && s'.store == s.store && s'.commits == s.commits && s'.clock == s.clock
            && later.clock == s.clock + d && later.store == s.store
  {
  }

  /// What undisturbed passes achieve

  lemma RunCons(s: Sys, a: Action, rest: seq<Action>)
    requires Enabled(s, a) && Valid(Apply(s, a), rest)
    ensures Valid(s, [a] + rest) && Run(s, [a] + rest) == Run(Apply(s, a), rest)
  {
    assert ([a] + rest)[1..] == rest;
  }

  /** A message without an event id is committed. */
  lemma UnparseableIsCommitted(s: Sys, w: Worker, m: Msg)
    requires At(s, w).Idle? && m.consumer in WIRED && m.event.Unparseable?
    ensures var acts := [Fetch(w, m)] + ([Skip(w)] + ([Commit(w)] + []));
            Valid(s, acts) && Run(s, acts).commits == s.commits + [m] && Run(s, acts).handled == s.handled
  {
    var s1 := Apply(s, Fetch(w, m));
    var s2 := Apply(s1, Skip(w));
    RunCons(s2, Commit(w), []);
    RunCons(s1, Skip(w), [Commit(w)] + []);
    RunCons(s, Fetch(w, m), [Skip(w)] + ([Commit(w)] + []));
  }

  /** A duplicate of a marked event is committed without a handler call. */
  lemma DuplicateIsCommitted(s: Sys, w: Worker, m: Msg)
    requires At(s, w).Idle? && m.consumer in WIRED && m.event.Event? && Live(s.store, MarkerOf(m), s.clock)
    ensures var acts := [Fetch(w, m)] + ([Check(w, false)] + ([Commit(w)] + []));
            Valid(s, acts) && Run(s, acts).commits == s.commits + [m] && Run(s, acts).handled == s.handled
  {
    var s1 := Apply(s, Fetch(w, m));
    var s2 := Apply(s1, Check(w, false));
    RunCons(s2, Commit(w), []);
    RunCons(s1, Check(w, false), [Commit(w)] + []);
    RunCons(s, Fetch(w, m), [Check(w, false)] + ([Commit(w)] + []));
  }

  /** A section whose handler and store calls work ends `d` ms later with the event handled and committed,
      its marker good for 24 h, and its lease gone. */
  lemma SectionCommits(s: Sys, w: Worker, m: Msg, token: string, since: int, d: nat)
    requires At(s, w) == Handling(m, token, since) && m.event.Event?
    requires LeaseOf(m) in s.store && s.store[LeaseOf(m)].value == token
    ensures var acts := [Tick(d)] + ([Return(w, true)] + ([Complete(w, NoFault)] + ([Release(w, NoFault)] + ([Commit(w)] + []))));
            && Valid(s, acts)
            && var s' := Run(s, acts);
               && At(s', w).Idle? && s'.commits == s.commits + [m] && IdOf(m) in s'.handled
               && MarkerOf(m) in s'.store && s'.store[MarkerOf(m)].expiresAt == s.clock + d + 86_400_000
               && !Live(s'.store, LeaseOf(m), s'.clock)
  {
    var s1 := Apply(s, Tick(d));
    var s2 := Apply(s1, Return(w, true));
    var s3 := Apply(s2, Complete(w, NoFault));
    var s4 := Apply(s3, Release(w, NoFault));
    RunCons(s4, Commit(w), []);
    RunCons(s3, Release(w, NoFault), [Commit(w)] + []);
    RunCons(s2, Complete(w, NoFault), [Release(w, NoFault)] + ([Commit(w)] + []));
    RunCons(s1, Return(w, true), [Complete(w, NoFault)] + ([Release(w, NoFault)] + ([Commit(w)] + [])));
    RunCons(s, Tick(d), [Return(w, true)] + ([Complete(w, NoFault)] + ([Release(w, NoFault)] + ([Commit(w)] + []))));
  }

  /** A section whose handler fails gives its lease back and commits nothing, so the event can be tried
      again at once. */
  lemma FailedSectionFreesEvent(s: Sys, w: Worker, m: Msg, token: string, since: int, d: nat, next: string)
    requires At(s, w) == Handling(m, token, since) && m.event.Event? && m.consumer in WIRED
    requires LeaseOf(m) in s.store && s.store[LeaseOf(m)].value == token
    requires !Live(s.store, MarkerOf(m), s.clock) && next !in s.tokens
    ensures var acts := [Tick(d)] + ([Return(w, false)] + ([Release(w, NoFault)] + []));
            && Valid(s, acts)
            && var s' := Run(s, acts);
               && s'.commits == s.commits && s'.handled == s.handled
               && Valid(s', Attempt(w, m, next)) && At(Run(s', Attempt(w, m, next)), w) == Handling(m, next, s'.clock)
  {
    var s1 := Apply(s, Tick(d));
    var s2 := Apply(s1, Return(w, false));
    var s3 := Apply(s2, Release(w, NoFault));
    RunCons(s2, Release(w, NoFault), []);
    RunCons(s1, Return(w, false), [Release(w, NoFault)] + []);
    RunCons(s, Tick(d), [Return(w, false)] + ([Release(w, NoFault)] + []));
    AttemptStarts(s3, w, m, next);
  }

  /// The loop body, run by one worker against the store

  /** What happens to one iteration: time passing before each call, and how each call ends. */
  datatype World = World(
    beforeCheck: nat, checkFails: bool,
    beforeClaim: nat, token: string, claimFault: Fault,
    handling: nat, handlerOk: bool,
    beforeComplete: nat, completeFault: Fault,
    beforeRelease: nat, releaseFault: Fault)

  /** When an undisturbed iteration commits its message. */
  predicate Commits(m: Msg, world: World, clock: int, data: map<Key, Entry>) {
    || m.event.Unparseable?
    || (!world.checkFails &&
        var asked := clock + world.beforeCheck;
        || Live(data, MarkerOf(m), asked)
        || (!Live(data, LeaseOf(m), asked + world.beforeClaim) && world.claimFault == NoFault
            && world.handlerOk && world.completeFault == NoFault))
  }

  /** The protocol steps of a claimed section, and of its end after a handler that returned nil. */
  function SectionSteps(w: Worker, world: World): seq<Action> {
    if world.handlerOk then [Tick(world.handling), Return(w, true)] + EndSteps(w, world)
    else [Tick(world.handling), Return(w, false), Tick(world.beforeRelease), Release(w, world.releaseFault)]
  }

  function EndSteps(w: Worker, world: World): seq<Action> {
    [Tick(world.beforeComplete), Complete(w, world.completeFault),
     Tick(world.beforeRelease), Release(w, world.releaseFault)]
    + if world.completeFault == NoFault then [Commit(w)] else []
  }

  /** The protocol steps of one undisturbed pass through the loop. */
  function Steps(w: Worker, m: Msg, world: World, clock: int, data: map<Key, Entry>): seq<Action> {
    [Fetch(w, m)] + if m.event.Unparseable? then [Skip(w), Commit(w)] else ParsedSteps(w, m, world, clock, data)
  }

  function ParsedSteps(w: Worker, m: Msg, world: World, clock: int, data: map<Key, Entry>): seq<Action>
    requires m.event.Event?
  {
    [Tick(world.beforeCheck), Check(w, world.checkFails)]
    + if world.checkFails then []
      else if Live(data, MarkerOf(m), clock + world.beforeCheck) then [Commit(w)]
      else ClaimSteps(w, m, world, clock + world.beforeCheck, data)
  }

  function ClaimSteps(w: Worker, m: Msg, world: World, asked: int, data: map<Key, Entry>): seq<Action>
    requires m.event.Event?
  {
    [Tick(world.beforeClaim), Claim(w, world.token, world.claimFault)]
    + if Live(data, LeaseOf(m), asked + world.beforeClaim) || world.claimFault != NoFault then []
      else SectionSteps(w, world)
  }

  lemma Regroup(a: seq<Action>, b: seq<Action>, c: seq<Action>)
    ensures (a + b) + c == a + (b + c)
  {
  }

  class Runner {
    const me: Worker
    const store: RedisStore<Key>
    var clock: int
    var commits: seq<Msg>
    ghost const start: Sys           // where the protocol stood when this worker took over
    ghost var trace: seq<Action>     // the protocol steps this worker has taken since
    ghost var sys: Sys               // where they lead

    ghost predicate Tracks()
      reads this, store
    {
      && Valid(start, trace) && sys == Run(start, trace)
      && sys.store == store.data && sys.commits == commits && sys.clock == clock
    }

    constructor (me: Worker, store: RedisStore<Key>, clock: int, ghost start: Sys)
      requires start.store == store.data && start.clock == clock && start.commits == []
      ensures Tracks() && this.me == me && this.store == store && this.start == start && sys == start
    {
      this.me, this.store, this.clock, this.start := me, store, clock, start;
      commits, trace, sys := [], [], start;
    }

    /** Records that the call just made is the protocol step `a`. */
    ghost method Took(a: Action)
      requires Valid(start, trace) && sys == Run(start, trace) && Enabled(sys, a)
      modifies this`trace, this`sys
      ensures Valid(start, trace) && sys == Run(start, trace)
      ensures sys == Apply(old(sys), a) && trace == old(trace) + [a]
    {
      RunExtend(start, trace, a);
      trace, sys := trace + [a], Apply(sys, a);
    }

    method Wait(d: nat)
      requires Tracks()
      modifies this
      ensures Tracks() && sys == Apply(old(sys), Tick(d)) && trace == old(trace) + [Tick(d)]
      ensures commits == old(commits)
    {
      clock := clock + d;
      Took(Tick(d));
    }

    method Finish(m: Msg)
      requires Tracks() && At(sys, me) == Committing(m)
      modifies this
      ensures Tracks() && At(sys, me).Idle? && commits == old(commits) + [m]
      ensures trace == old(trace) + [Commit(me)]
    {
      commits := commits + [m];
      Took(Commit(me));
    }

    method ReleaseLease(m: Msg, token: string, fault: Fault)
      requires Tracks() && Enabled(sys, Release(me, fault))
      requires At(sys, me).m == m && At(sys, me).token == token
      modifies this, store
      ensures Tracks() && sys == Apply(old(sys), Release(me, fault)) && commits == old(commits)
      ensures trace == old(trace) + [Release(me, fault)]
    {
      if fault != Lost {
        store.CompareAndDelete(LeaseOf(m), token, clock);
      }
      Took(Release(me, fault));
    }

    /** One pass through the loop takes exactly the protocol steps the world it meets calls for: every
        store effect, every early exit and the commit are steps the theorems above speak of. */
    method Iterate(m: Msg, world: World)
      requires Tracks() && At(sys, me).Idle? && m.consumer in WIRED && world.token !in sys.tokens
      modifies this, store
      ensures Tracks() && At(sys, me).Idle?
      ensures trace == old(trace) + Steps(me, m, world, old(clock), old(store.data))
      ensures commits == if Commits(m, world, old(clock), old(store.data)) then old(commits) + [m] else old(commits)
    {
      Begin(m);
      if m.event.Unparseable? {
        SkipAndCommit(m);
        Regroup(old(trace), [Fetch(me, m)], [Skip(me), Commit(me)]);
      } else {
        Parsed(m, world);
        Regroup(old(trace), [Fetch(me, m)], ParsedSteps(me, m, world, old(clock), old(store.data)));
      }
    }

    method Begin(m: Msg)
      requires Tracks() && At(sys, me).Idle? && m.consumer in WIRED
      modifies this
      ensures Tracks() && At(sys, me) == Fetched(m) && trace == old(trace) + [Fetch(me, m)]
      ensures commits == old(commits) && clock == old(clock) && sys.tokens == old(sys.tokens)
    {
      Took(Fetch(me, m));
    }

    method SkipAndCommit(m: Msg)
      requires Tracks() && At(sys, me) == Fetched(m) && m.event.Unparseable?
      modifies this
      ensures Tracks() && At(sys, me).Idle? && commits == old(commits) + [m]
      ensures trace == old(trace) + [Skip(me), Commit(me)]
    {
      Took(Skip(me));
      Finish(m);
    }

    /** From the marker check on. */
    method Parsed(m: Msg, world: World)
      requires Tracks() && At(sys, me) == Fetched(m) && m.event.Event? && world.token !in sys.tokens
      modifies this, store
      ensures Tracks() && At(sys, me).Idle?
      ensures trace == old(trace) + ParsedSteps(me, m, world, old(clock), old(store.data))
      ensures commits == if Commits(m, world, old(clock), old(store.data)) then old(commits) + [m] else old(commits)
    {
      var processed := Look(m, world);
      if world.checkFails {
        return;
      }
      if processed {
        Finish(m);
        return;
      }
      Claimed(m, world);
      Regroup(old(trace), [Tick(world.beforeCheck), Check(me, world.checkFails)],
              ClaimSteps(me, m, world, old(clock) + world.beforeCheck, old(store.data)));
    }

    /** The marker check. */
    method Look(m: Msg, world: World) returns (processed: bool)
      requires Tracks() && At(sys, me) == Fetched(m) && m.event.Event?
      modifies this
      ensures Tracks() && commits == old(commits) && clock == old(clock) + world.beforeCheck
      ensures trace == old(trace) + [Tick(world.beforeCheck), Check(me, world.checkFails)]
      ensures sys.tokens == old(sys.tokens)
      ensures processed == Live(store.data, MarkerOf(m), clock)
      ensures At(sys, me) == if world.checkFails then Idle else if processed then Committing(m) else Unclaimed(m)
    {
      Wait(world.beforeCheck);
      processed := store.Exists(MarkerOf(m), clock);
      Took(Check(me, world.checkFails));
    }

    /** From the claim on. */
    method Claimed(m: Msg, world: World)
      requires Tracks() && At(sys, me) == Unclaimed(m) && m.event.Event? && world.token !in sys.tokens
      modifies this, store
      ensures Tracks() && At(sys, me).Idle?
      ensures trace == old(trace) + ClaimSteps(me, m, world, old(clock), old(store.data))
      ensures commits ==
              if !Live(old(store.data), LeaseOf(m), old(clock) + world.beforeClaim) && world.claimFault == NoFault
                 && world.handlerOk && world.completeFault == NoFault
              then old(commits) + [m] else old(commits)
    {
      var claimed := Lease(m, world);
      if claimed {
        Process(m, world);
      }
    }

    /** The claimed section: handler, marker, release, commit. */
    method Process(m: Msg, world: World)
      requires Tracks() && At(sys, me).Handling? && At(sys, me).m == m && m.event.Event?
      requires At(sys, me).token == world.token
      modifies this, store
      ensures Tracks() && At(sys, me).Idle?
      ensures trace == old(trace) + SectionSteps(me, world)
      ensures commits == if world.handlerOk && world.completeFault == NoFault then old(commits) + [m] else old(commits)
    {
      Wait(world.handling);
      Took(Return(me, world.handlerOk));
      if !world.handlerOk {
        Wait(world.beforeRelease);
        ReleaseLease(m, world.token, world.releaseFault);
        return;
      }
      End(m, world);
    }

    /** After a handler that returned nil: marker, release, commit. */
    method End(m: Msg, world: World)
      requires Tracks() && At(sys, me).HandlerOk? && At(sys, me).m == m && m.event.Event? && At(sys, me).token == world.token
      modifies this, store
      ensures Tracks() && At(sys, me).Idle?
      ensures trace == old(trace) + EndSteps(me, world)
      ensures commits == if world.completeFault == NoFault then old(commits) + [m] else old(commits)
    {
      Record(m, world);
      Wait(world.beforeRelease);
      ReleaseLease(m, world.token, world.releaseFault);
      assert trace == old(trace) + [Tick(world.beforeComplete), Complete(me, world.completeFault),
                                    Tick(world.beforeRelease), Release(me, world.releaseFault)];
      if world.completeFault == NoFault {
        Finish(m);
      }
    }

    method Lease(m: Msg, world: World) returns (claimed: bool)
      requires Tracks() && At(sys, me) == Unclaimed(m) && m.event.Event? && world.token !in sys.tokens
      modifies this, store
      ensures Tracks() && commits == old(commits)
      ensures trace == old(trace) + [Tick(world.beforeClaim), Claim(me, world.token, world.claimFault)]
      ensures if claimed then At(sys, me).Handling? && At(sys, me).m == m && At(sys, me).token == world.token
              else At(sys, me).Idle?
      ensures claimed <==> !Live(old(store.data), LeaseOf(m), old(clock) + world.beforeClaim) && world.claimFault == NoFault
    {
      Wait(world.beforeClaim);
      claimed := false;
      if world.claimFault != Lost {
        claimed := store.SetNX(LeaseOf(m), world.token, LEASE_TTL, clock);
      }
      claimed := claimed && world.claimFault == NoFault;
      Took(Claim(me, world.token, world.claimFault));
    }

    method Record(m: Msg, world: World)
      requires Tracks() && At(sys, me).HandlerOk? && At(sys, me).m == m && m.event.Event? && At(sys, me).token == world.token
      modifies this, store
      ensures Tracks() && commits == old(commits)
      ensures trace == old(trace) + [Tick(world.beforeComplete), Complete(me, world.completeFault)]
      ensures At(sys, me) == if world.completeFault == NoFault then Completed(m, world.token, old(At(sys, me)).since)
                             else CompleteFailed(m, world.token, old(At(sys, me)).since)
    {
      Wait(world.beforeComplete);
      if world.completeFault != Lost {
        store.Set(MarkerOf(m), "1", MARKER_TTL, clock);
      }
      Took(Complete(me, world.completeFault));
    }
  }
}
