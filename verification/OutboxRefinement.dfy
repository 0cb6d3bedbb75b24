/** A tick of runOutbox, run to the end without interruption, is a run of the publisher protocol: what is
    proved of all interleavings holds of the loop. */
module OutboxRefinement {
  import opened Outbox
  import opened OutboxWorkers
  import opened OutboxDrain

  /** Publish a row, then acknowledge or release it. */
  function RowSteps(w: Worker, id: Id, f: Fate): seq<Action> {
    [Publish(w, f.outcome), if f.outcome.Confirmed? then Ack(w, f.lands) else Release(w, f.lands)]
  }

  function LoopSteps(w: Worker, ids: seq<Id>, fates: Id -> Fate): seq<Action> {
    if ids == [] then [] else RowSteps(w, ids[0], fates(ids[0])) + LoopSteps(w, ids[1..], fates)
  }

  function TickSteps(w: Worker, token: Token, hostNow: int, ids: seq<Id>, fates: Id -> Fate): seq<Action> {
    [Claim(w, token, hostNow, {}, ids, true)] + LoopSteps(w, ids, fates)
  }

  function SettledAll(t: Table, ids: seq<Id>, now: int, fates: Id -> Fate): Table {
    map id | id in t :: if id in ids then Settled(t[id], now, fates(id)) else t[id]
  }

  lemma RunTwo(s: Sys, a: Action, b: Action, rest: seq<Action>)
    requires Enabled(s, a) && Enabled(Apply(s, a), b) && Valid(Apply(Apply(s, a), b), rest)
    ensures Valid(s, [a, b] + rest) && Run(s, [a, b] + rest) == Run(Apply(Apply(s, a), b), rest)
  {
    var acts := [a, b] + rest;
    assert acts[1..] == [b] + rest && acts[1..][1..] == rest;
    assert Valid(Apply(s, a), acts[1..]);
  }

  /** One row of the loop. */
  lemma RowStepsRun(s: Sys, w: Worker, token: Token, ids: seq<Id>, f: Fate)
    requires ids != [] && w in s.workers && s.workers[w] == Work(token, ids, ToPublish) && Owns(s.table, ids[0], token)
    ensures var steps := RowSteps(w, ids[0], f);
            && Enabled(s, steps[0]) && Enabled(Apply(s, steps[0]), steps[1])
            && var s' := Apply(Apply(s, steps[0]), steps[1]);
               && s'.table == s.table[ids[0] := Settled(s.table[ids[0]], s.clock, f)]
               && s'.calls == s.calls + [PublishCall(ids[0], token, f.outcome)]
               && s'.clock == s.clock && s'.used == s.used
               && (|ids| > 1 ==> s'.workers == s.workers[w := Work(token, ids[1..], ToPublish)])
               && (|ids| == 1 ==> s'.workers == s.workers - {w})
  {
  }

  lemma SettleFirst(t: Table, ids: seq<Id>, now: int, fates: Id -> Fate)
    requires ids != [] && Distinct(ids) && ids[0] in t
    ensures ids[0] !in ids[1..] && Distinct(ids[1..])
    ensures SettledAll(t, ids, now, fates) == SettledAll(t[ids[0] := Settled(t[ids[0]], now, fates(ids[0]))], ids[1..], now, fates)
  {
    assert forall id :: id in ids <==> id == ids[0] || id in ids[1..];
  }

  lemma CallsOfFirst(ids: seq<Id>, token: Token, fates: Id -> Fate)
    requires ids != []
    ensures CallsOf(ids, token, fates) == [PublishCall(ids[0], token, fates(ids[0]).outcome)] + CallsOf(ids[1..], token, fates)
  {
  }

  lemma {:induction false} LoopStepsRun(s: Sys, w: Worker, token: Token, ids: seq<Id>, fates: Id -> Fate)
    requires Distinct(ids) && forall id :: id in ids ==> Owns(s.table, id, token)
    requires if ids == [] then w !in s.workers else w in s.workers && s.workers[w] == Work(token, ids, ToPublish)
    ensures Valid(s, LoopSteps(w, ids, fates))
    ensures var s' := Run(s, LoopSteps(w, ids, fates));
            && s'.table == SettledAll(s.table, ids, s.clock, fates)
            && s'.calls == s.calls + CallsOf(ids, token, fates)
            && s'.clock == s.clock && s'.used == s.used && s'.workers == s.workers - {w}
    decreases |ids|
  {
    if ids == [] {
      assert SettledAll(s.table, ids, s.clock, fates) == s.table;
    } else {
      var id, rest, f := ids[0], ids[1..], fates(ids[0]);
      var steps := RowSteps(w, id, f);
      RowStepsRun(s, w, token, ids, f);
      var s' := Apply(Apply(s, steps[0]), steps[1]);
      SettleFirst(s.table, ids, s.clock, fates);
      assert forall i :: i in rest ==> i in ids && i != id;
      LoopStepsRun(s', w, token, rest, fates);
      RunTwo(s, steps[0], steps[1], LoopSteps(w, rest, fates));
      CallsOfFirst(ids, token, fates);
      assert s'.workers - {w} == s.workers - {w};
    }
  }

  /** An idle publisher's tick: the protocol reaches exactly the table and the publish calls that Tick
      computes, with the publisher idle again. */
  lemma TickIsARun(s: Sys, w: Worker, token: Token, hostNow: int, ids: seq<Id>, fates: Id -> Fate, t': Table)
    requires w !in s.workers && token !in s.used
    requires TickResult(s.table, t', token, hostNow, s.clock, fates, ids)
    ensures Valid(s, TickSteps(w, token, hostNow, ids, fates))
    ensures var s' := Run(s, TickSteps(w, token, hostNow, ids, fates));
            && s' == s.(table := t', used := s.used + {token}, calls := s.calls + CallsOf(ids, token, fates))
  {
    var claim := Claim(w, token, hostNow, {}, ids, true);
    var s1 := Apply(s, claim);
    assert forall id :: id in ids <==> id in Ids(ids);
    LoopStepsRun(s1, w, token, ids, fates);
    var steps := TickSteps(w, token, hostNow, ids, fates);
    assert steps[1..] == LoopSteps(w, ids, fates);
    assert SettledAll(s1.table, ids, s.clock, fates) == t';
    assert s1.workers - {w} == s.workers;
  }
}
