/** A handler call run to the end without interruption is a run of the pipeline: HandleMessageSent's
    result and rows are those the interleaved protocol reaches. */
module WebhookRefinement {
  import opened Dispatcher
  import opened Webhook
  import P = WebhookPipeline
  import C = Consumer

  /** The pipeline steps for one target that fared as `s`. */
  function TargetSteps(w: C.Worker, s: Served, visit: Visit): seq<P.Action> {
    match s
    case CheckFailed => [P.CheckRow(w, true)]
    case AlreadyRecorded => [P.CheckRow(w, false)]
    case Tried(result) =>
      if Resolves(result) then [P.CheckRow(w, false), P.SendTo(w, true), P.MarkRow(w, visit.markFault)]
      else [P.CheckRow(w, false), P.SendTo(w, false)]
  }

  function LoopSteps(w: C.Worker, served: seq<Served>, visits: seq<Visit>, n: nat): seq<P.Action>
    requires n <= |served| && n <= |visits|
  {
    if n == 0 then [] else LoopSteps(w, served, visits, n - 1) + TargetSteps(w, served[n - 1], visits[n - 1])
  }

  function IdsOf(targets: seq<Target>): (ids: seq<WebhookId>)
    ensures |ids| == |targets| && forall i :: 0 <= i < |ids| ==> ids[i] == targets[i].id
  {
    seq(|targets|, i requires 0 <= i < |targets| => targets[i].id)
  }

  lemma {:induction false} RunConcat(s: P.Sys, first: seq<P.Action>, second: seq<P.Action>)
    requires P.Valid(s, first) && P.Valid(P.Run(s, first), second)
    ensures P.Valid(s, first + second) && P.Run(s, first + second) == P.Run(P.Run(s, first), second)
    decreases |first|
  {
    if first == [] {
      assert first + second == second;
    } else {
      assert (first + second)[1..] == first[1..] + second;
      RunConcat(P.Apply(s, first[0]), first[1..], second);
    }
  }

  lemma RunOne(s: P.Sys, a: P.Action)
    requires P.Enabled(s, a)
    ensures P.Valid(s, [a]) && P.Run(s, [a]) == P.Apply(s, a)
  {
    assert [a][1..] == [];
  }

  lemma RunCons(s: P.Sys, a: P.Action, rest: seq<P.Action>)
    requires P.Enabled(s, a) && P.Valid(P.Apply(s, a), rest)
    ensures P.Valid(s, [a] + rest) && P.Run(s, [a] + rest) == P.Run(P.Apply(s, a), rest)
  {
    assert ([a] + rest)[1..] == rest;
  }

  /** Where worker `w` stands in its call after the targets counted in `p`. */
  ghost predicate Stands(s: P.Sys, w: C.Worker, ids: seq<WebhookId>, p: Progress) {
    && P.HandlesWebhook(s, w) && w in s.calls
    && s.calls[w].targets == ids && s.calls[w].next == |p.served| && s.calls[w].phase == P.ToCheck
    && s.calls[w].failed == p.failed && s.rows == p.rows
  }

  /** The steps take worker `w` to where `p` stands, and nothing else moves. */
  ghost predicate LeadTo(s: P.Sys, steps: seq<P.Action>, w: C.Worker, ids: seq<WebhookId>, p: Progress) {
    && P.Valid(s, steps) && Stands(P.Run(s, steps), w, ids, p)
    && P.Run(s, steps).core == s.core && P.Run(s, steps).webhooks == s.webhooks
  }

  ghost predicate AtNext(s: P.Sys, w: C.Worker, ids: seq<WebhookId>, target: Target, p: Progress) {
    Stands(s, w, ids, p) && |p.served| < |ids| && ids[|p.served|] == target.id && target.id in s.webhooks
  }

  /** A target whose check fails or that is recorded already. */
  lemma PassedRun(s: P.Sys, w: C.Worker, ids: seq<WebhookId>, target: Target, visit: Visit, p: Progress)
    requires AtNext(s, w, ids, target, p)
    requires !Serve(P.EventOf(s, w), target, visit, p.rows, p.breakers).0.Tried?
    ensures LeadTo(s, [P.CheckRow(w, visit.checkFails)], w, ids, ServeNext(P.EventOf(s, w), target, visit, p))
  {
    RunOne(s, P.CheckRow(w, visit.checkFails));
  }

  /** A target that is tried in vain. */
  lemma FailedRun(s: P.Sys, w: C.Worker, ids: seq<WebhookId>, target: Target, visit: Visit, p: Progress)
    requires AtNext(s, w, ids, target, p)
    requires var fate := Serve(P.EventOf(s, w), target, visit, p.rows, p.breakers).0;
             fate.Tried? && !Resolves(fate.result)
    ensures LeadTo(s, [P.CheckRow(w, false)] + [P.SendTo(w, false)], w, ids,
                   ServeNext(P.EventOf(s, w), target, visit, p))
  {
    var s1 := P.Apply(s, P.CheckRow(w, false));
    RunOne(s1, P.SendTo(w, false));
    RunCons(s, P.CheckRow(w, false), [P.SendTo(w, false)]);
  }

  /** A target that is delivered or permanently rejected. */
  lemma ResolvedRun(s: P.Sys, w: C.Worker, ids: seq<WebhookId>, target: Target, visit: Visit, p: Progress)
    requires AtNext(s, w, ids, target, p)
    requires var fate := Serve(P.EventOf(s, w), target, visit, p.rows, p.breakers).0;
             fate.Tried? && Resolves(fate.result)
    ensures LeadTo(s, [P.CheckRow(w, false)] + ([P.SendTo(w, true)] + [P.MarkRow(w, visit.markFault)]), w, ids,
                   ServeNext(P.EventOf(s, w), target, visit, p))
  {
    var s1 := P.Apply(s, P.CheckRow(w, false));
    var s2 := P.Apply(s1, P.SendTo(w, true));
    RunOne(s2, P.MarkRow(w, visit.markFault));
    RunCons(s1, P.SendTo(w, true), [P.MarkRow(w, visit.markFault)]);
    RunCons(s, P.CheckRow(w, false), [P.SendTo(w, true)] + [P.MarkRow(w, visit.markFault)]);
  }

  /** One target. */
  lemma TargetRun(s: P.Sys, w: C.Worker, ids: seq<WebhookId>, target: Target, visit: Visit, p: Progress)
    requires AtNext(s, w, ids, target, p)
    ensures var p' := ServeNext(P.EventOf(s, w), target, visit, p);
            LeadTo(s, TargetSteps(w, p'.served[|p.served|], visit), w, ids, p')
  {
    var fate := Serve(P.EventOf(s, w), target, visit, p.rows, p.breakers).0;
    var steps := TargetSteps(w, fate, visit);
    if !fate.Tried? {
      PassedRun(s, w, ids, target, visit, p);
      assert steps == [P.CheckRow(w, visit.checkFails)];
    } else if Resolves(fate.result) {
      ResolvedRun(s, w, ids, target, visit, p);
      assert steps == [P.CheckRow(w, false)] + ([P.SendTo(w, true)] + [P.MarkRow(w, visit.markFault)]);
    } else {
      FailedRun(s, w, ids, target, visit, p);
      assert steps == [P.CheckRow(w, false)] + [P.SendTo(w, false)];
    }
  }

  lemma LeadOn(s: P.Sys, first: seq<P.Action>, second: seq<P.Action>, w: C.Worker, ids: seq<WebhookId>,
               between: Progress, p: Progress)
    requires LeadTo(s, first, w, ids, between) && LeadTo(P.Run(s, first), second, w, ids, p)
    ensures LeadTo(s, first + second, w, ids, p)
  {
    RunConcat(s, first, second);
  }

  lemma {:induction false} LoopRun(s: P.Sys, w: C.Worker, targets: seq<Target>, visits: seq<Visit>,
                                   start: Progress, n: nat)
    requires n <= |targets| == |visits| && start.served == []
    requires Stands(s, w, IdsOf(targets), start)
    requires forall t :: t in targets ==> t.id in s.webhooks
    ensures var p := Fanout(P.EventOf(s, w), targets, visits, start, n);
            LeadTo(s, LoopSteps(w, p.served, visits, n), w, IdsOf(targets), p)
    decreases n
  {
    if n == 0 {
    } else {
      LoopRun(s, w, targets, visits, start, n - 1);
      var event := P.EventOf(s, w);
      var before, p := Fanout(event, targets, visits, start, n - 1), Fanout(event, targets, visits, start, n);
      SameSteps(w, before.served, p.served, visits, n - 1);
      var first, second := LoopSteps(w, before.served, visits, n - 1), TargetSteps(w, p.served[n - 1], visits[n - 1]);
      TargetRun(P.Run(s, first), w, IdsOf(targets), targets[n - 1], visits[n - 1], before);
      LeadOn(s, first, second, w, IdsOf(targets), before, p);
    }
  }

  lemma {:induction false} SameSteps(w: C.Worker, served: seq<Served>, more: seq<Served>, visits: seq<Visit>, n: nat)
    requires served <= more && n <= |served| && n <= |visits|
    ensures LoopSteps(w, served, visits, n) == LoopSteps(w, more, visits, n)
    decreases n
  {
    if n == 0 {
    } else {
      SameSteps(w, served, more, visits, n - 1);
    }
  }

  /** What ListWorkspaceWebhooks returns for the workspace of the event's channel. */
  ghost predicate Listing(s: P.Sys, event: string, targets: seq<Target>) {
    && P.Placed(s, event)
    && (forall t :: t in targets ==> t.id in s.webhooks && P.Listens(s, event, t.id))
    && (forall id :: id in s.webhooks && P.Listens(s, event, id) ==> exists t :: t in targets && t.id == id)
  }

  lemma ListingIsEnabled(s: P.Sys, w: C.Worker, targets: seq<Target>)
    requires P.HandlesWebhook(s, w) && w !in s.calls && DistinctIds(targets)
    requires Listing(s, P.EventOf(s, w), targets)
    ensures P.Enabled(s, P.List(w, IdsOf(targets)))
  {
    var ids := IdsOf(targets);
    forall id | id in s.webhooks && P.Listens(s, P.EventOf(s, w), id) ensures id in ids {
      var t :| t in targets && t.id == id;
      var i :| 0 <= i < |targets| && targets[i] == t;
      assert ids[i] == id;
    }
  }

  /** The call right after its listing. */
  lemma ListStands(s: P.Sys, w: C.Worker, targets: seq<Target>, b: Breakers)
    requires P.HandlesWebhook(s, w) && w !in s.calls && P.Enabled(s, P.List(w, IdsOf(targets)))
    ensures var s1 := P.Apply(s, P.List(w, IdsOf(targets)));
            && Stands(s1, w, IdsOf(targets), Progress([], false, s.rows, b))
            && s1.webhooks == s.webhooks && P.EventOf(s1, w) == P.EventOf(s, w)
  {
  }

  /** A call past its last target can return, and only what it has collected. */
  lemma ReturnIff(s: P.Sys, w: C.Worker, ids: seq<WebhookId>, p: Progress, ok: bool)
    requires Stands(s, w, ids, p) && |p.served| == |ids|
    ensures P.Enabled(s, P.Core(C.Return(w, ok))) <==> ok == !p.failed
  {
  }

  /** A whole call: list the webhooks, serve them, return. The pipeline ends with the rows of Fanout and
      returns nil exactly when HandleMessageSent does. */
  lemma HandlerIsARun(s: P.Sys, w: C.Worker, targets: seq<Target>, visits: seq<Visit>, b: Breakers, ok: bool)
    requires P.HandlesWebhook(s, w) && w !in s.calls && |targets| == |visits| && DistinctIds(targets)
    requires Listing(s, P.EventOf(s, w), targets)
    ensures var p := Fanout(P.EventOf(s, w), targets, visits, Progress([], false, s.rows, b), |visits|);
            var steps := [P.List(w, IdsOf(targets))] + LoopSteps(w, p.served, visits, |visits|);
            && P.Valid(s, steps)
            && P.Run(s, steps).rows == p.rows
            && (P.Enabled(P.Run(s, steps), P.Core(C.Return(w, ok))) <==> ok == !p.failed)
  {
    var list, start := P.List(w, IdsOf(targets)), Progress([], false, s.rows, b);
    var p := Fanout(P.EventOf(s, w), targets, visits, start, |visits|);
    var rest := LoopSteps(w, p.served, visits, |visits|);
    ListingIsEnabled(s, w, targets);
    ListStands(s, w, targets, b);
    LoopRun(P.Apply(s, list), w, targets, visits, start, |visits|);
    RunCons(s, list, rest);
    ReturnIff(P.Run(P.Apply(s, list), rest), w, IdsOf(targets), p, ok);
  }
}
