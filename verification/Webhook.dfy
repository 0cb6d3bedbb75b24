/** The webhook fan-out: HandleMessageSent of apps/api/internal/webhook/consumer.go over the
    webhook_deliveries table, first as one call, then interleaved with everything else. */
module Webhook {
  import opened Breaker
  import opened Dispatcher
  import C = Consumer

  type WebhookId = nat

  /** One registered webhook of the event's workspace. */
  datatype Target = Target(id: WebhookId, url: string)

  type Row = (string, WebhookId) // event id, webhook id: the primary key

  class DeliveryTable {
    var rows: set<Row>

    method IsDelivered(event: string, id: WebhookId) returns (found: bool)
      ensures found == ((event, id) in rows)
    {
      found := (event, id) in rows;
    }

    /** INSERT ... ON CONFLICT DO NOTHING, returning the number of rows inserted. */
    method MarkDelivered(event: string, id: WebhookId) returns (inserted: nat)
      modifies this
      ensures rows == old(rows) + {(event, id)}
      ensures inserted == if (event, id) in old(rows) then 0 else 1
    {
      inserted := if (event, id) in rows then 0 else 1;
      rows := rows + {(event, id)};
    }
  }

  /** What the handler finds before the fan-out. `Skipped` covers direct messages, channel ids that do
      not parse and deleted channels; `Broken` covers undecodable events and failing queries. */
  datatype Listing = Skipped | Broken | Listed(targets: seq<Target>)

  /** What happens while one target is served. */
  datatype Visit = Visit(checkFails: bool, allowAt: int, script: Script, markFault: C.Fault)

  predicate DistinctIds(targets: seq<Target>) {
    forall i, j :: 0 <= i < j < |targets| ==> targets[i].id != targets[j].id
  }

  predicate Resolves(r: SendResult) { r.Delivered? || r.Permanent? }

  /** How one target fared: Tried targets, and only those, were handed to the dispatcher. */
  datatype Served = CheckFailed | AlreadyRecorded | Tried(result: SendResult)

  predicate Records(v: Served, visit: Visit) {
    v.Tried? && Resolves(v.result) && visit.markFault != C.Lost
  }

  predicate Succeeds(v: Served, visit: Visit) {
    v.AlreadyRecorded? || (v.Tried? && Resolves(v.result) && visit.markFault == C.NoFault)
  }

  /** How far a fan-out has come: how each target fared, whether errors were collected, the delivery
      table and the breakers. */
  datatype Progress = Progress(served: seq<Served>, failed: bool, rows: set<Row>, breakers: Breakers)

  /** How one target fares, given the table and the breakers as they stand. */
  function Serve(event: string, target: Target, visit: Visit, rows: set<Row>, b: Breakers): (Served, Breakers) {
    if visit.checkFails then (CheckFailed, b)
    else if (event, target.id) in rows then (AlreadyRecorded, b)
    else
      var sent := SentTo(b, target.url, visit.allowAt, visit.script);
      (Tried(sent.1), sent.0)
  }

  /** The next target is served, and recorded if its result calls for that. */
  function ServeNext(event: string, target: Target, visit: Visit, p: Progress): Progress {
    var s := Serve(event, target, visit, p.rows, p.breakers);
    Progress(p.served + [s.0], p.failed || !Succeeds(s.0, visit),
             p.rows + if Records(s.0, visit) then {(event, target.id)} else {}, s.1)
  }

  /** The first `n` targets, one after another. */
  function Fanout(event: string, targets: seq<Target>, visits: seq<Visit>, start: Progress, n: nat): (p: Progress)
    requires n <= |targets| == |visits| && start.served == []
    ensures |p.served| == n
  {
    if n == 0 then start
    else ServeNext(event, targets[n - 1], visits[n - 1], Fanout(event, targets, visits, start, n - 1))
  }

  /** A delivered or permanently rejected event is recorded; any other result is an error. */
  method ServeTarget(event: string, target: Target, visit: Visit, table: DeliveryTable, d: Dispatcher)
    returns (served: Served)
    requires d.Valid()
    modifies table, d, d.breakers.Values
    ensures d.Valid() && fresh(d.breakers.Values - old(d.breakers.Values))
    ensures (served, d.Snapshot()) == Serve(event, target, visit, old(table.rows), old(d.Snapshot()))
    ensures table.rows == old(table.rows) + if Records(served, visit) then {(event, target.id)} else {}
  {
    if visit.checkFails {
      return CheckFailed;
    }
    var delivered := table.IsDelivered(event, target.id);
    if delivered {
      return AlreadyRecorded;
    }
    var result, _ := d.Send(target.url, visit.allowAt, visit.script);
    if Resolves(result) && visit.markFault != C.Lost {
      var _ := table.MarkDelivered(event, target.id);
    }
    return Tried(result);
  }

  method HandleMessageSent(event: string, listing: Listing, visits: seq<Visit>, table: DeliveryTable, d: Dispatcher)
    returns (ok: bool, served: seq<Served>)
    requires listing.Listed? ==> |visits| == |listing.targets|
    requires d.Valid()
    modifies table, d, d.breakers.Values
    ensures d.Valid()
    ensures Progress(served, if listing.Listed? then !ok else false, table.rows, d.Snapshot()) ==
            var start := Progress([], false, old(table.rows), old(d.Snapshot()));
            if listing.Listed? then Fanout(event, listing.targets, visits, start, |visits|) else start
    ensures !listing.Listed? ==> ok == listing.Skipped?
  {
    served := [];
    if !listing.Listed? {
      return listing.Skipped?, served;
    }
    ghost var start := Progress([], false, table.rows, d.Snapshot());
    ok := true;
    for i := 0 to |visits|
      invariant d.Valid() && fresh(d.breakers.Values - old(d.breakers.Values))
      invariant Progress(served, !ok, table.rows, d.Snapshot()) == Fanout(event, listing.targets, visits, start, i)
    {
      var s := ServeTarget(event, listing.targets[i], visits[i], table, d);
      served := served + [s];
      if !Succeeds(s, visits[i]) {
        ok := false;
      }
    }
  }

  /** Later targets leave the earlier results alone, and rows only accumulate. */
  lemma {:induction false} FanoutGrows(event: string, targets: seq<Target>, visits: seq<Visit>, start: Progress, m: nat, n: nat)
    requires m <= n <= |targets| == |visits| && start.served == []
    ensures Fanout(event, targets, visits, start, m).served <= Fanout(event, targets, visits, start, n).served
    ensures Fanout(event, targets, visits, start, m).rows <= Fanout(event, targets, visits, start, n).rows
    decreases n
  {
    if m == n {
    } else {
      FanoutGrows(event, targets, visits, start, m, n - 1);
    }
  }

  /** The table afterwards: the rows from before, and the targets delivered or permanently rejected. */
  lemma {:induction false} FanoutRows(event: string, targets: seq<Target>, visits: seq<Visit>, start: Progress, n: nat, row: Row)
    requires n <= |targets| == |visits| && start.served == []
    ensures var p := Fanout(event, targets, visits, start, n);
            row in p.rows <==>
              row in start.rows || exists i :: 0 <= i < n && Records(p.served[i], visits[i]) && row == (event, targets[i].id)
    decreases n
  {
    if n == 0 {
    } else {
      FanoutRows(event, targets, visits, start, n - 1, row);
      var before, p := Fanout(event, targets, visits, start, n - 1), Fanout(event, targets, visits, start, n);
      assert forall i :: 0 <= i < n - 1 ==> p.served[i] == before.served[i];
    }
  }

  /** A target is handed to the dispatcher iff its check works and the pair was not recorded before the
      call: nothing recorded is sent again, nothing unrecorded is passed over. */
  lemma TriedIff(event: string, targets: seq<Target>, visits: seq<Visit>, start: Progress, i: nat)
    requires i < |targets| == |visits| && start.served == [] && DistinctIds(targets)
    ensures var served := Fanout(event, targets, visits, start, |visits|).served;
            && (served[i].CheckFailed? <==> visits[i].checkFails)
            && (served[i].Tried? <==> !visits[i].checkFails && (event, targets[i].id) !in start.rows)
  {
    FanoutGrows(event, targets, visits, start, i + 1, |visits|);
    FanoutRows(event, targets, visits, start, i, (event, targets[i].id));
  }

  /** One more target leaves the earlier results alone and collects an error iff it does not succeed. */
  lemma FanoutStep(event: string, targets: seq<Target>, visits: seq<Visit>, start: Progress, n: nat)
    requires 0 < n <= |targets| == |visits| && start.served == []
    ensures var before, p := Fanout(event, targets, visits, start, n - 1), Fanout(event, targets, visits, start, n);
            && p.served[..n - 1] == before.served
            && p.failed == (before.failed || !Succeeds(p.served[n - 1], visits[n - 1]))
  {
  }

  predicate AllSucceed(served: seq<Served>, visits: seq<Visit>)
    requires |served| <= |visits|
  {
    forall i :: 0 <= i < |served| ==> Succeeds(served[i], visits[i])
  }

  lemma AllSucceedSnoc(served: seq<Served>, visits: seq<Visit>)
    requires 0 < |served| <= |visits|
    ensures var n := |served| - 1;
            AllSucceed(served, visits) <==> AllSucceed(served[..n], visits) && Succeeds(served[n], visits[n])
  {
    assert forall i :: 0 <= i < |served| - 1 ==> served[..|served| - 1][i] == served[i];
  }

  /** Errors are collected exactly for the targets that do not succeed. */
  lemma {:induction false} FailedIff(event: string, targets: seq<Target>, visits: seq<Visit>, start: Progress, n: nat)
    requires n <= |targets| == |visits| && start.served == [] && !start.failed
    ensures !Fanout(event, targets, visits, start, n).failed <==>
            AllSucceed(Fanout(event, targets, visits, start, n).served, visits)
    decreases n
  {
    if n == 0 {
    } else {
      FailedIff(event, targets, visits, start, n - 1);
      FanoutStep(event, targets, visits, start, n);
      AllSucceedSnoc(Fanout(event, targets, visits, start, n).served, visits);
    }
  }

  /// The same in terms of what the receivers answered

  /** Some attempt is answered with a status below 500, all earlier ones having failed and been waited out. */
  ghost predicate AnsweredBelow500(script: Script) {
    exists k :: 0 <= k < 3 && script[k].Response? && script[k].status < 500 && FailsUpTo(script, k)
  }

  predicate FailsUpTo(script: Script, k: int)
    requires k <= 3
  {
    forall j :: 0 <= j < k ==> RequestFails(script[j]) && !script[j].waitCancelled
  }

  lemma ResolvesIff(c: Circuit, allowAt: int, script: Script)
    ensures Resolves(Sent(c, allowAt, script).1) <==> Allowed(c, allowAt).1 && AnsweredBelow500(script)
  {
    if Allowed(c, allowAt).1 {
      var n := CallMeaning(Allowed(c, allowAt).0, script, 0);
      assert FailsUpTo(script, n - 1);
      if AnsweredBelow500(script) {
        var k :| 0 <= k < 3 && script[k].Response? && script[k].status < 500 && FailsUpTo(script, k);
        assert k >= n - 1;
      }
    }
  }

  lemma ServeMeaning(event: string, target: Target, visit: Visit, rows: set<Row>, b: Breakers)
    ensures var v, answered := Serve(event, target, visit, rows, b).0,
                               Allowed(b.Of(target.url), visit.allowAt).1 && AnsweredBelow500(visit.script);
            && (Records(v, visit) <==>
                  !visit.checkFails && (event, target.id) !in rows && answered && visit.markFault != C.Lost)
            && (Succeeds(v, visit) <==>
                  !visit.checkFails && ((event, target.id) in rows || (answered && visit.markFault == C.NoFault)))
  {
    ResolvesIff(b.Of(target.url), visit.allowAt, visit.script);
  }

  /** The breaker admits the i-th target's call, and its receiver answers below 500. */
  ghost predicate Answered(event: string, targets: seq<Target>, visits: seq<Visit>, start: Progress, i: nat)
    requires i < |targets| == |visits| && start.served == []
  {
    && Allowed(Fanout(event, targets, visits, start, i).breakers.Of(targets[i].url), visits[i].allowAt).1
    && AnsweredBelow500(visits[i].script)
  }

  /** How the i-th target fares once all have been served. */
  lemma ServedMeaning(event: string, targets: seq<Target>, visits: seq<Visit>, start: Progress, i: nat)
    requires i < |targets| == |visits| && start.served == [] && DistinctIds(targets)
    ensures var v := Fanout(event, targets, visits, start, |visits|).served[i];
            var before, answered := (event, targets[i].id) in start.rows, Answered(event, targets, visits, start, i);
            && (Records(v, visits[i]) <==> !visits[i].checkFails && !before && answered && visits[i].markFault != C.Lost)
            && (Succeeds(v, visits[i]) <==>
                  !visits[i].checkFails && (before || (answered && visits[i].markFault == C.NoFault)))
  {
    var p := Fanout(event, targets, visits, start, i);
    FanoutGrows(event, targets, visits, start, i + 1, |visits|);
    FanoutRows(event, targets, visits, start, i, (event, targets[i].id));
    ServeMeaning(event, targets[i], visits[i], p.rows, p.breakers);
  }

  /** A listed webhook is recorded for the event afterwards iff it was before, or its check worked, the
      receiver answered below 500, and the insert was not lost. */
  lemma RecordedIff(event: string, targets: seq<Target>, visits: seq<Visit>, start: Progress, i: nat)
    requires i < |targets| == |visits| && start.served == [] && DistinctIds(targets)
    ensures (event, targets[i].id) in Fanout(event, targets, visits, start, |visits|).rows <==>
            || (event, targets[i].id) in start.rows
            || (!visits[i].checkFails && Answered(event, targets, visits, start, i) && visits[i].markFault != C.Lost)
  {
    FanoutRows(event, targets, visits, start, |visits|, (event, targets[i].id));
    ServedMeaning(event, targets, visits, start, i);
  }

  /** The call returns nil iff every webhook's check worked and it was recorded before, or its receiver
      answered below 500 and the insert reported no error. */
  lemma NilIff(event: string, targets: seq<Target>, visits: seq<Visit>, start: Progress)
    requires |targets| == |visits| && start.served == [] && !start.failed && DistinctIds(targets)
    ensures !Fanout(event, targets, visits, start, |visits|).failed <==>
            forall i :: 0 <= i < |visits| ==>
              !visits[i].checkFails && ((event, targets[i].id) in start.rows
                || (Answered(event, targets, visits, start, i) && visits[i].markFault == C.NoFault))
  {
    FailedIff(event, targets, visits, start, |visits|);
    forall i | 0 <= i < |visits|
      ensures Succeeds(Fanout(event, targets, visits, start, |visits|).served[i], visits[i]) <==>
              !visits[i].checkFails && ((event, targets[i].id) in start.rows
                || (Answered(event, targets, visits, start, i) && visits[i].markFault == C.NoFault))
    {
      ServedMeaning(event, targets, visits, start, i);
    }
  }

  /** The handler returns nil only if every webhook it listed is recorded for the event afterwards. */
  lemma NilMeansRecorded(event: string, targets: seq<Target>, visits: seq<Visit>, start: Progress)
    requires |targets| == |visits| && start.served == [] && !start.failed
    requires !Fanout(event, targets, visits, start, |visits|).failed
    ensures forall t :: t in targets ==> (event, t.id) in Fanout(event, targets, visits, start, |visits|).rows
  {
    FailedIff(event, targets, visits, start, |visits|);
    forall i | 0 <= i < |targets| ensures (event, targets[i].id) in Fanout(event, targets, visits, start, |visits|).rows {
      FanoutGrows(event, targets, visits, start, i + 1, |visits|);
      assert Succeeds(Fanout(event, targets, visits, start, |visits|).served[i], visits[i]);
    }
  }
}
