/** The webhook consumer and its handler together: many workers run HandleMessageSent one query at a
    time, interleaved with each other, with redelivery, crashes, store errors, and with channels and
    webhooks being added and deleted (a webhook's deletion takes its delivery rows with it). */
module WebhookPipeline {
  import opened Webhook
  import C = Consumer

  const WEBHOOK_CONSUMER := "webhook_message_sent"

  type Channel = nat
  type Workspace = nat

  /** Where an event comes from, as its payload says. An event without an origin does not decode. */
  datatype Origin = DirectMessage | MalformedChannel | InChannel(channel: Channel)

  datatype Phase = ToCheck | ToSend | ToMark

  /** A handler call in progress: its serial number, the webhooks it listed, how many it has passed,
      and whether some error has been collected. */
  datatype Call = Call(serial: nat, targets: seq<WebhookId>, next: nat, phase: Phase, failed: bool)

  datatype Sys = Sys(
    core: C.Sys,
    origins: map<string, Origin>,             // by event id
    homes: map<Channel, Workspace>,           // every channel ever created
    deleted: set<Channel>,
    owners: map<WebhookId, Workspace>,        // every webhook ever registered
    webhooks: set<WebhookId>,                 // those registered now
    calls: map<C.Worker, Call>,
    serials: nat,
    rows: set<Row>,
    snapshots: set<(string, seq<WebhookId>)>, // (event, listed webhooks) of calls that returned nil
    sends: seq<(nat, Row)>)                   // (call serial, row) of every Send

  function Init(clock: int, origins: map<string, Origin>): Sys {
    Sys(C.Init(clock), origins, map[], {}, map[], {}, map[], 0, {}, {}, [])
  }

  datatype Action =
    | Core(a: C.Action)
    | List(w: C.Worker, targets: seq<WebhookId>)      // the queries before the loop
    | Early(w: C.Worker, ok: bool)                    // an exit before the loop
    | CheckRow(w: C.Worker, fails: bool)
    | SendTo(w: C.Worker, resolves: bool)
    | MarkRow(w: C.Worker, fault: C.Fault)
    | AddChannel(c: Channel, home: Workspace)
    | DeleteChannel(c: Channel)
    | AddWebhook(id: WebhookId, owner: Workspace)
    | DeleteWebhook(id: WebhookId)

  predicate HandlesWebhook(s: Sys, w: C.Worker) {
    C.At(s.core, w).Handling? && C.At(s.core, w).m.consumer == WEBHOOK_CONSUMER && C.At(s.core, w).m.event.Event?
  }

  function EventOf(s: Sys, w: C.Worker): string
    requires HandlesWebhook(s, w)
  {
    C.At(s.core, w).m.event.id
  }

  predicate AtTarget(s: Sys, w: C.Worker, phase: Phase) {
    HandlesWebhook(s, w) && w in s.calls && s.calls[w].next < |s.calls[w].targets| && s.calls[w].phase == phase
  }

  function RowOf(s: Sys, w: C.Worker): Row
    requires HandlesWebhook(s, w) && w in s.calls && s.calls[w].next < |s.calls[w].targets|
  {
    (EventOf(s, w), s.calls[w].targets[s.calls[w].next])
  }

  function Next(c: Call, failed: bool): Call {
    c.(next := c.next + 1, phase := ToCheck, failed := c.failed || failed)
  }

  /** The event is of a channel that has existed. */
  predicate Placed(s: Sys, event: string) {
    event in s.origins && s.origins[event].InChannel? && s.origins[event].channel in s.homes
  }

  /** The events the handler returns nil for without listing anything. */
  predicate Skippable(s: Sys, event: string) {
    && event in s.origins
    && (s.origins[event].InChannel? ==>
          s.origins[event].channel !in s.homes || s.origins[event].channel in s.deleted)
  }

  /** The webhook belongs to the workspace of the event's channel. */
  predicate Listens(s: Sys, event: string, t: WebhookId) {
    Placed(s, event) && t in s.owners && s.owners[t] == s.homes[s.origins[event].channel]
  }

  predicate Enabled(s: Sys, a: Action) {
    match a
    case Core(b) =>
      && C.Enabled(s.core, b)
      && (b.Return? && HandlesWebhook(s, b.w) ==>
            Finished(s, b.w) && b.ok == !s.calls[b.w].failed)
    case List(w, targets) => // all of the workspace's webhooks; its channel may be deleted meanwhile
      && HandlesWebhook(s, w) && w !in s.calls && Placed(s, EventOf(s, w))
      && (forall t :: t in targets ==> t in s.webhooks)
      && (forall t :: t in s.webhooks && Listens(s, EventOf(s, w), t) ==> t in targets)
      && (forall t :: t in targets ==> Listens(s, EventOf(s, w), t))
      && (forall i, j :: 0 <= i < j < |targets| ==> targets[i] != targets[j])
    case Early(w, ok) => HandlesWebhook(s, w) && w !in s.calls && (ok ==> Skippable(s, EventOf(s, w)))
    case CheckRow(w, _) => AtTarget(s, w, ToCheck)
    case SendTo(w, _) => AtTarget(s, w, ToSend)
    case MarkRow(w, _) => AtTarget(s, w, ToMark)
    case AddChannel(c, _) => c !in s.homes
    case DeleteChannel(c) => c in s.homes
    case AddWebhook(id, _) => id !in s.owners
    case DeleteWebhook(id) => id in s.webhooks
  }

  predicate Finished(s: Sys, w: C.Worker) { w in s.calls && s.calls[w].next == |s.calls[w].targets| }

  function Apply(s: Sys, a: Action): Sys
    requires Enabled(s, a)
  {
    match a
    case Core(b) =>
      var s' := s.(core := C.Apply(s.core, b));
      if b.Return? && HandlesWebhook(s, b.w) then
        s'.(calls := s.calls - {b.w},
            snapshots := if b.ok then s.snapshots + {(EventOf(s, b.w), s.calls[b.w].targets)} else s.snapshots)
      else if b.Crash? then s'.(calls := s.calls - {b.w})
      else s'
    case List(w, targets) =>
      s.(calls := s.calls[w := Call(s.serials, targets, 0, ToCheck, false)], serials := s.serials + 1)
    case Early(w, ok) =>
      s.(calls := s.calls[w := Call(s.serials, [], 0, ToCheck, !ok)], serials := s.serials + 1)
    case CheckRow(w, fails) =>
      var c := s.calls[w];
      s.(calls := s.calls[w := if fails then Next(c, true)
                               else if RowOf(s, w) in s.rows then Next(c, false)
                               else c.(phase := ToSend)])
    case SendTo(w, resolves) =>
      var c := s.calls[w];
      s.(calls := s.calls[w := if resolves then c.(phase := ToMark) else Next(c, true)],
         sends := s.sends + [(c.serial, RowOf(s, w))])
    case MarkRow(w, fault) =>
      // the row references the webhook, so the insert fails once the webhook is gone
      var lands := fault != C.Lost && RowOf(s, w).1 in s.webhooks;
      s.(calls := s.calls[w := Next(s.calls[w], fault != C.NoFault || !lands)],
         rows := if lands then s.rows + {RowOf(s, w)} else s.rows)
    case AddChannel(c, home) => s.(homes := s.homes[c := home])
    case DeleteChannel(c) => s.(deleted := s.deleted + {c})
    case AddWebhook(id, owner) => s.(webhooks := s.webhooks + {id}, owners := s.owners[id := owner])
    case DeleteWebhook(id) =>
      s.(webhooks := s.webhooks - {id}, rows := set r | r in s.rows && r.1 != id)
  }

  predicate Valid(s: Sys, acts: seq<Action>)
    decreases |acts|
  {
    acts == [] || (Enabled(s, acts[0]) && Valid(Apply(s, acts[0]), acts[1..]))
  }

  function Run(s: Sys, acts: seq<Action>): Sys
    requires Valid(s, acts)
    decreases |acts|
  {
    if acts == [] then s else Run(Apply(s, acts[0]), acts[1..])
  }

  /// The pipeline projects onto the consumer protocol, so everything proved there holds here.

  function CoreSteps(acts: seq<Action>): seq<C.Action> {
    if acts == [] then [] else (if acts[0].Core? then [acts[0].a] else []) + CoreSteps(acts[1..])
  }

  lemma {:induction false} RefinesConsumer(s: Sys, acts: seq<Action>)
    requires Valid(s, acts)
    ensures C.Valid(s.core, CoreSteps(acts))
    ensures Run(s, acts).core == C.Run(s.core, CoreSteps(acts))
    decreases |acts|
  {
    if acts == [] {
    } else {
      RefinesConsumer(Apply(s, acts[0]), acts[1..]);
      if acts[0].Core? {
        assert CoreSteps(acts)[1..] == CoreSteps(acts[1..]);
      } else {
        assert CoreSteps(acts) == CoreSteps(acts[1..]);
      }
    }
  }

  /// Resolution

  /** The pair needs no further delivery: it is recorded, or its webhook is gone for good. */
  predicate Resolved(s: Sys, event: string, t: WebhookId) {
    (event, t) in s.rows || t !in s.webhooks
  }

  ghost predicate Consistent(s: Sys) {
    && s.webhooks <= s.owners.Keys
    && (forall r :: r in s.rows ==> r.1 in s.webhooks)
    && (forall w :: w in s.calls ==>
          && HandlesWebhook(s, w)
          && s.calls[w].serial < s.serials
          && s.calls[w].next <= |s.calls[w].targets|
          && (forall i :: 0 <= i < |s.calls[w].targets| ==> s.calls[w].targets[i] in s.owners))
  }

  ghost predicate CallsSettle(s: Sys) {
    forall w, i :: w in s.calls && HandlesWebhook(s, w) && !s.calls[w].failed && 0 <= i < s.calls[w].next <= |s.calls[w].targets| ==>
      Resolved(s, EventOf(s, w), s.calls[w].targets[i])
  }

  ghost predicate SnapshotsSettled(s: Sys) {
    && (forall p, i :: p in s.snapshots && 0 <= i < |p.1| ==> p.1[i] in s.owners && Resolved(s, p.0, p.1[i]))
    && (forall e :: (WEBHOOK_CONSUMER, e) in s.core.handled ==> exists ts :: (e, ts) in s.snapshots)
  }

  /** A resolved pair stays resolved: nothing removes a row but the deletion of its webhook, and a
      deleted webhook never comes back. */
  lemma StepKeepsResolved(s: Sys, a: Action, event: string, t: WebhookId)
    requires Enabled(s, a) && t in s.owners && Resolved(s, event, t)
    ensures Resolved(Apply(s, a), event, t) && t in Apply(s, a).owners
  {
  }

  /** Only its own return or crash takes a worker out of the handler. */
  lemma CoreKeepsHandling(c: C.Sys, b: C.Action, w: C.Worker)
    requires C.Enabled(c, b) && C.At(c, w).Handling? && !((b.Return? || b.Crash?) && b.w == w)
    ensures C.At(C.Apply(c, b), w) == C.At(c, w)
  {
  }

  lemma CoreHandles(c: C.Sys, b: C.Action, id: (string, string))
    requires C.Enabled(c, b) && id in C.Apply(c, b).handled && id !in c.handled
    ensures b.Return? && b.ok && C.At(c, b.w).Handling? && C.IdOf(C.At(c, b.w).m) == id
  {
  }

  /** A step of the consumer protocol changes nothing else, except that a returning or crashing worker's
      call ends. */
  lemma CoreStep(s: Sys, a: Action)
    requires Enabled(s, a) && a.Core?
    ensures var s' := Apply(s, a);
            && s'.core == C.Apply(s.core, a.a)
            && s'.calls == (if (a.a.Return? && HandlesWebhook(s, a.a.w)) || a.a.Crash? then s.calls - {a.a.w} else s.calls)
            && s'.rows == s.rows && s'.webhooks == s.webhooks && s'.owners == s.owners && s'.sends == s.sends
            && s'.serials == s.serials
  {
  }

  /** A call that was in progress before the step keeps its worker, its list and its serial number. */
  lemma OldCall(s: Sys, a: Action, w: C.Worker)
    requires Consistent(s) && Enabled(s, a) && w in Apply(s, a).calls && w in s.calls
    ensures HandlesWebhook(Apply(s, a), w) && EventOf(Apply(s, a), w) == EventOf(s, w)
    ensures Apply(s, a).calls[w].targets == s.calls[w].targets && Apply(s, a).calls[w].serial == s.calls[w].serial
    ensures Apply(s, a).calls[w].next <= |s.calls[w].targets|
    ensures s.calls[w].failed ==> Apply(s, a).calls[w].failed
  {
    if a.Core? {
      CoreStep(s, a);
      CoreKeepsHandling(s.core, a.a, w);
    }
  }

  /** A call begins by listing every webhook of the event's workspace, or by an exit before the loop. */
  lemma NewCall(s: Sys, a: Action, w: C.Worker)
    requires Enabled(s, a) && w in Apply(s, a).calls && w !in s.calls
    ensures HandlesWebhook(s, w) && HandlesWebhook(Apply(s, a), w) && EventOf(Apply(s, a), w) == EventOf(s, w)
    ensures Apply(s, a).calls[w].next == 0 && Apply(s, a).calls[w].serial == s.serials < Apply(s, a).serials
    ensures a == List(w, Apply(s, a).calls[w].targets)
            || (a == Early(w, !Apply(s, a).calls[w].failed) && Apply(s, a).calls[w].targets == [])
  {
  }

  lemma StepConsistent(s: Sys, a: Action)
    requires Consistent(s) && Enabled(s, a)
    ensures Consistent(Apply(s, a))
  {
    var s' := Apply(s, a);
    forall w | w in s'.calls
      ensures HandlesWebhook(s', w) && s'.calls[w].serial < s'.serials && s'.calls[w].next <= |s'.calls[w].targets|
      ensures forall i :: 0 <= i < |s'.calls[w].targets| ==> s'.calls[w].targets[i] in s'.owners
    {
      if w in s.calls {
        OldCall(s, a, w);
      } else {
        NewCall(s, a, w);
      }
    }
  }

  /** A call moves on without an error only past a target that is resolved by then. */
  lemma PassesResolved(s: Sys, a: Action, w: C.Worker)
    requires Consistent(s) && Enabled(s, a) && w in s.calls && w in Apply(s, a).calls && !Apply(s, a).calls[w].failed
    ensures var c, c' := s.calls[w], Apply(s, a).calls[w];
            || c'.next == c.next
            || (c'.next == c.next + 1 <= |c.targets| && Resolved(Apply(s, a), EventOf(s, w), c.targets[c.next]))
  {
    if a.Core? {
      CoreStep(s, a);
    }
  }

  lemma StepSettles(s: Sys, a: Action)
    requires Consistent(s) && CallsSettle(s) && Enabled(s, a)
    ensures CallsSettle(Apply(s, a))
  {
    var s' := Apply(s, a);
    StepConsistent(s, a);
    forall w, i | w in s'.calls && HandlesWebhook(s', w) && !s'.calls[w].failed && 0 <= i < s'.calls[w].next
      ensures Resolved(s', EventOf(s', w), s'.calls[w].targets[i])
    {
      if w in s.calls {
        OldCall(s, a, w);
        PassesResolved(s, a, w);
        if i < s.calls[w].next {
          assert Resolved(s, EventOf(s, w), s.calls[w].targets[i]);
          StepKeepsResolved(s, a, EventOf(s, w), s.calls[w].targets[i]);
        }
      } else {
        NewCall(s, a, w);
      }
    }
  }

  lemma StepSnapshots(s: Sys, a: Action)
    requires Consistent(s) && CallsSettle(s) && SnapshotsSettled(s) && Enabled(s, a)
    ensures SnapshotsSettled(Apply(s, a))
  {
    var s' := Apply(s, a);
    forall p, i | p in s'.snapshots && 0 <= i < |p.1|
      ensures p.1[i] in s'.owners && Resolved(s', p.0, p.1[i])
    {
      assert Resolved(s, p.0, p.1[i]);
      StepKeepsResolved(s, a, p.0, p.1[i]);
    }
    forall e | (WEBHOOK_CONSUMER, e) in s'.core.handled ensures exists ts :: (e, ts) in s'.snapshots {
      if (WEBHOOK_CONSUMER, e) in s.core.handled {
        var ts :| (e, ts) in s.snapshots;
        assert (e, ts) in s'.snapshots;
      } else {
        assert (e, s.calls[a.a.w].targets) in s'.snapshots;
      }
    }
  }

  lemma {:induction false} RunSettles(s: Sys, acts: seq<Action>)
    requires Valid(s, acts) && Consistent(s) && CallsSettle(s) && SnapshotsSettled(s)
    ensures Consistent(Run(s, acts)) && CallsSettle(Run(s, acts)) && SnapshotsSettled(Run(s, acts))
    decreases |acts|
  {
    if acts == [] {
    } else {
      StepConsistent(s, acts[0]);
      StepSettles(s, acts[0]);
      StepSnapshots(s, acts[0]);
      RunSettles(Apply(s, acts[0]), acts[1..]);
    }
  }

  /** When the offset of an event is committed, some handler call for it has returned nil, and every webhook
      that call listed is recorded for the event or has been deleted since. A skipped event lists none; what
      a list holds otherwise is the subject of CommittedEventIsDelivered. */
  lemma CommittedEventIsResolved(clock: int, origins: map<string, Origin>, acts: seq<Action>, m: C.Msg)
    returns (targets: seq<WebhookId>)
    requires Valid(Init(clock, origins), acts)
    requires m in Run(Init(clock, origins), acts).core.commits && m.consumer == WEBHOOK_CONSUMER && m.event.Event?
    ensures var s := Run(Init(clock, origins), acts);
            && (m.event.id, targets) in s.snapshots
            && forall i :: 0 <= i < |targets| ==> Resolved(s, m.event.id, targets[i])
  {
    var s := Run(Init(clock, origins), acts);
    RunSettles(Init(clock, origins), acts);
    RefinesConsumer(Init(clock, origins), acts);
    C.RunSafe(C.Init(clock), CoreSteps(acts));
    assert C.CommitOk(s.core, m);
    targets :| (m.event.id, targets) in s.snapshots;
  }

  /// Delivery to every webhook of the workspace

  predicate ChannelGone(s: Sys, event: string) {
    Placed(s, event) && s.origins[event].channel in s.deleted
  }

  predicate Waived(s: Sys, event: string, t: WebhookId) { Resolved(s, event, t) || ChannelGone(s, event) }

  predicate CallsFor(s: Sys, w: C.Worker, event: string) {
    w in s.calls && HandlesWebhook(s, w) && EventOf(s, w) == event
  }

  /** Every call for the event without errors so far has the webhook on its list, and no call has returned
      nil, unless the pair is waived. */
  ghost predicate Covered(s: Sys, event: string, t: WebhookId) {
    && (forall w :: CallsFor(s, w, event) && !s.calls[w].failed ==> t in s.calls[w].targets || Waived(s, event, t))
    && ((WEBHOOK_CONSUMER, event) in s.core.handled ==> Waived(s, event, t))
  }

  lemma StepKeepsWaived(s: Sys, a: Action, event: string, t: WebhookId)
    requires Enabled(s, a) && Listens(s, event, t)
    ensures Listens(Apply(s, a), event, t)
    ensures Waived(s, event, t) ==> Waived(Apply(s, a), event, t)
  {
    StepKeepsDirectory(s, a);
    if Resolved(s, event, t) {
      StepKeepsResolved(s, a, event, t);
    }
  }

  /** Origins never change, and neither do the workspaces of channels and webhooks. */
  lemma StepKeepsDirectory(s: Sys, a: Action)
    requires Enabled(s, a)
    ensures var s' := Apply(s, a);
            && s'.origins == s.origins && s.deleted <= s'.deleted
            && (forall c :: c in s.homes ==> c in s'.homes && s'.homes[c] == s.homes[c])
            && (forall t :: t in s.owners ==> t in s'.owners && s'.owners[t] == s.owners[t])
  {
  }

  /** An event becomes handled only when a call for it returns that has passed its whole list without an
      error. */
  lemma HandledBefore(s: Sys, a: Action, event: string)
    requires Consistent(s) && Enabled(s, a)
    requires (WEBHOOK_CONSUMER, event) in Apply(s, a).core.handled && (WEBHOOK_CONSUMER, event) !in s.core.handled
    ensures a.Core? && a.a.Return? && CallsFor(s, a.a.w, event) && Finished(s, a.a.w) && !s.calls[a.a.w].failed
  {
    if a.Core? {
      CoreStep(s, a);
      CoreHandles(s.core, a.a, (WEBHOOK_CONSUMER, event));
    }
  }

  lemma StepCovers(s: Sys, a: Action, event: string, t: WebhookId)
    requires Consistent(s) && CallsSettle(s) && Enabled(s, a)
    requires Listens(s, event, t) && Covered(s, event, t)
    ensures Listens(Apply(s, a), event, t) && Covered(Apply(s, a), event, t)
  {
    var s' := Apply(s, a);
    StepKeepsWaived(s, a, event, t);
    forall w | CallsFor(s', w, event) && !s'.calls[w].failed
      ensures t in s'.calls[w].targets || Waived(s', event, t)
    {
      if w in s.calls {
        OldCall(s, a, w);
        assert CallsFor(s, w, event);
      } else {
        NewCall(s, a, w);
      }
    }
    if (WEBHOOK_CONSUMER, event) in s'.core.handled && (WEBHOOK_CONSUMER, event) !in s.core.handled {
      HandledBefore(s, a, event);
      var call := s.calls[a.a.w];
      if t in call.targets {
        var i :| 0 <= i < |call.targets| && call.targets[i] == t;
        assert Resolved(s, event, call.targets[i]);
      }
    }
  }

  lemma {:induction false} RunCovers(s: Sys, acts: seq<Action>, event: string, t: WebhookId)
    requires Valid(s, acts) && Consistent(s) && CallsSettle(s) && Listens(s, event, t) && Covered(s, event, t)
    ensures Listens(Run(s, acts), event, t) && Covered(Run(s, acts), event, t)
    decreases |acts|
  {
    if acts == [] {
    } else {
      StepConsistent(s, acts[0]);
      StepSettles(s, acts[0]);
      StepCovers(s, acts[0], event, t);
      RunCovers(Apply(s, acts[0]), acts[1..], event, t);
    }
  }

  /** End to end: take a moment when no call for an event is in progress or has returned nil, for instance
      any moment before the first. When the event's offset is committed later, every webhook that its
      workspace had at that moment and still has is recorded for the event, unless the channel has been
      deleted. */
  lemma CommittedEventIsDelivered(clock: int, origins: map<string, Origin>, before: seq<Action>, after: seq<Action>,
                                  m: C.Msg, t: WebhookId)
    requires Valid(Init(clock, origins), before) && Valid(Run(Init(clock, origins), before), after)
    requires m.consumer == WEBHOOK_CONSUMER && m.event.Event?
    requires var s := Run(Init(clock, origins), before);
             && Listens(s, m.event.id, t) && (WEBHOOK_CONSUMER, m.event.id) !in s.core.handled
             && forall w :: !CallsFor(s, w, m.event.id)
    requires m in Run(Run(Init(clock, origins), before), after).core.commits
    ensures var s := Run(Run(Init(clock, origins), before), after);
            t in s.webhooks && !ChannelGone(s, m.event.id) ==> (m.event.id, t) in s.rows
  {
    var s := Run(Init(clock, origins), before);
    RunSettles(Init(clock, origins), before);
    RunCovers(s, after, m.event.id, t);
    RefinesConsumer(Init(clock, origins), before);
    C.RunSafe(C.Init(clock), CoreSteps(before));
    RefinesConsumer(s, after);
    C.RunSafe(s.core, CoreSteps(after));
    assert C.CommitOk(Run(s, after).core, m);
  }

  /** Every send is logged with its call's serial number, and nothing else is. */
  lemma SendsAreLogged(s: Sys, a: Action)
    requires Enabled(s, a)
    ensures Apply(s, a).sends == if a.SendTo? then s.sends + [(s.calls[a.w].serial, RowOf(s, a.w))] else s.sends
  {
  }

  /// Nothing leaves the workspace

  ghost predicate Confined(s: Sys) {
    && (forall w, i :: w in s.calls && HandlesWebhook(s, w) && 0 <= i < |s.calls[w].targets| ==>
          Listens(s, EventOf(s, w), s.calls[w].targets[i]))
    && (forall i :: 0 <= i < |s.sends| ==> Listens(s, s.sends[i].1.0, s.sends[i].1.1))
    && (forall r :: r in s.rows ==> Listens(s, r.0, r.1))
  }

  lemma StepKeepsListening(s: Sys, a: Action, event: string, t: WebhookId)
    requires Enabled(s, a) && Listens(s, event, t)
    ensures Listens(Apply(s, a), event, t)
  {
    StepKeepsDirectory(s, a);
  }

  lemma StepConfined(s: Sys, a: Action)
    requires Consistent(s) && Confined(s) && Enabled(s, a)
    ensures Confined(Apply(s, a))
  {
    var s' := Apply(s, a);
    forall w, i | w in s'.calls && HandlesWebhook(s', w) && 0 <= i < |s'.calls[w].targets|
      ensures Listens(s', EventOf(s', w), s'.calls[w].targets[i])
    {
      if w in s.calls {
        OldCall(s, a, w);
      } else {
        NewCall(s, a, w);
      }
      StepKeepsListening(s, a, EventOf(s, w), s'.calls[w].targets[i]);
    }
    forall i | 0 <= i < |s'.sends| ensures Listens(s', s'.sends[i].1.0, s'.sends[i].1.1) {
      assert i < |s.sends| ==> s'.sends[i] == s.sends[i];
      StepKeepsListening(s, a, s'.sends[i].1.0, s'.sends[i].1.1);
    }
    forall r | r in s'.rows ensures Listens(s', r.0, r.1) {
      StepKeepsListening(s, a, r.0, r.1);
    }
  }

  lemma {:induction false} RunConfined(s: Sys, acts: seq<Action>)
    requires Valid(s, acts) && Consistent(s) && Confined(s)
    ensures Confined(Run(s, acts))
    decreases |acts|
  {
    if acts == [] {
    } else {
      StepConsistent(s, acts[0]);
      StepConfined(s, acts[0]);
      RunConfined(Apply(s, acts[0]), acts[1..]);
    }
  }

  /** An event is only ever sent to, and recorded for, webhooks of its own channel's workspace; direct
      messages are sent to nobody. */
  lemma SendsStayInWorkspace(clock: int, origins: map<string, Origin>, acts: seq<Action>, i: nat)
    requires Valid(Init(clock, origins), acts) && i < |Run(Init(clock, origins), acts).sends|
    ensures var s := Run(Init(clock, origins), acts); Listens(s, s.sends[i].1.0, s.sends[i].1.1)
  {
    RunConfined(Init(clock, origins), acts);
  }

  /// No second delivery of a recorded pair

  /** The only calls that may still send a recorded pair are the `exempt` ones, by serial number. */
  ghost predicate Spared(s: Sys, row: Row, exempt: set<nat>) {
    && row.1 in s.owners
    && (row.1 in s.webhooks ==>
          && row in s.rows
          && forall w :: AtTarget(s, w, ToSend) && RowOf(s, w) == row ==> s.calls[w].serial in exempt)
  }

  /** The calls that stand right before a send of the pair: their check came before its recording. */
  ghost function AboutToSend(s: Sys, row: Row): set<nat> {
    set w | w in s.calls && AtTarget(s, w, ToSend) && RowOf(s, w) == row :: s.calls[w].serial
  }

  /** A call standing before the send of `row` got there by a check that missed the row, or was there
      before. */
  lemma SendingCallWasSending(s: Sys, a: Action, w: C.Worker)
    requires Consistent(s) && Enabled(s, a)
    requires AtTarget(Apply(s, a), w, ToSend)
    ensures HandlesWebhook(s, w) && w in s.calls && s.calls[w].next < |s.calls[w].targets|
    ensures RowOf(Apply(s, a), w) == RowOf(s, w) && Apply(s, a).calls[w].serial == s.calls[w].serial
    ensures AtTarget(s, w, ToSend) || (a == CheckRow(w, false) && RowOf(s, w) !in s.rows)
  {
    if w in s.calls {
      OldCall(s, a, w);
      if a.Core? {
        CoreStep(s, a);
      }
    } else {
      NewCall(s, a, w);
    }
  }

  lemma StepSpares(s: Sys, a: Action, row: Row, exempt: set<nat>)
    requires Consistent(s) && Enabled(s, a) && Spared(s, row, exempt)
    ensures Spared(Apply(s, a), row, exempt)
    ensures row.1 in Apply(s, a).webhooks ==>
              forall i :: |s.sends| <= i < |Apply(s, a).sends| && Apply(s, a).sends[i].1 == row ==>
                Apply(s, a).sends[i].0 in exempt
    ensures s.sends <= Apply(s, a).sends
  {
    var s' := Apply(s, a);
    if row.1 in s'.webhooks {
      assert row.1 in s.webhooks && row in s'.rows;
      forall w | AtTarget(s', w, ToSend) && RowOf(s', w) == row ensures s'.calls[w].serial in exempt {
        SendingCallWasSending(s, a, w);
      }
    }
  }

  lemma {:induction false} RunSpares(s: Sys, acts: seq<Action>, row: Row, exempt: set<nat>)
    requires Valid(s, acts) && Consistent(s) && Spared(s, row, exempt)
    requires row.1 in Run(s, acts).webhooks
    ensures var sends := Run(s, acts).sends;
            && s.sends <= sends
            && forall i :: |s.sends| <= i < |sends| && sends[i].1 == row ==> sends[i].0 in exempt
    decreases |acts|
  {
    if acts == [] {
    } else {
      var s' := Apply(s, acts[0]);
      StepConsistent(s, acts[0]);
      StepSpares(s, acts[0], row, exempt);
      RunSpares(s', acts[1..], row, exempt);
      if row.1 !in s'.webhooks {
        WebhookNeverReturns(s', acts[1..], row.1);
      }
    }
  }

  lemma {:induction false} WebhookNeverReturns(s: Sys, acts: seq<Action>, t: WebhookId)
    requires Valid(s, acts) && t in s.owners && t !in s.webhooks
    ensures t !in Run(s, acts).webhooks
    decreases |acts|
  {
    if acts == [] {
    } else {
      WebhookNeverReturns(Apply(s, acts[0]), acts[1..], t);
    }
  }

  /** Once a pair is recorded, it is sent again, for as long as the webhook exists, only by a call that stood
      right before that very send when it was recorded. Calls that start later, and calls that have yet to
      check the pair, never send it. */
  lemma RecordedNeverResent(clock: int, origins: map<string, Origin>, before: seq<Action>, after: seq<Action>, row: Row)
    requires Valid(Init(clock, origins), before) && Valid(Run(Init(clock, origins), before), after)
    requires row in Run(Init(clock, origins), before).rows
    requires row.1 in Run(Run(Init(clock, origins), before), after).webhooks
    ensures var s, s' := Run(Init(clock, origins), before), Run(Run(Init(clock, origins), before), after);
            && s.sends <= s'.sends
            && forall i :: |s.sends| <= i < |s'.sends| && s'.sends[i].1 == row ==> s'.sends[i].0 in AboutToSend(s, row)
  {
    var s := Run(Init(clock, origins), before);
    RunSettles(Init(clock, origins), before);
    RunSpares(s, after, row, AboutToSend(s, row));
  }

  function Unresolved(s: Sys, event: string, targets: set<WebhookId>): set<WebhookId> {
    set t | t in targets && !Resolved(s, event, t)
  }

  /** Over any number of redeliveries the unresolved part of a fixed list only shrinks. */
  lemma {:induction false} UnresolvedShrinks(s: Sys, acts: seq<Action>, event: string, targets: set<WebhookId>)
    requires Valid(s, acts) && targets <= s.owners.Keys
    ensures Unresolved(Run(s, acts), event, targets) <= Unresolved(s, event, targets)
    decreases |acts|
  {
    if acts == [] {
    } else {
      var s' := Apply(s, acts[0]);
      forall t | t in targets && Resolved(s, event, t) ensures Resolved(s', event, t) {
        StepKeepsResolved(s, acts[0], event, t);
      }
      UnresolvedShrinks(s', acts[1..], event, targets);
    }
  }
}
