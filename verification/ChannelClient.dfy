/** The channel-service client of apps/api/internal/channelclient/client.go. */
module ChannelClient {
  import opened Breaker
  import opened RpcTiming
  import opened Wrappers

  const ATTEMPTS := 4

  /** One lookup, the rejoin that follows a transient failure, and how long after them the caller's
      context would end. `isNil` says that an `OK` lookup comes with a nil pointer for a reply; the client
      generated from the service contract never returns that. */
  datatype Lookup = Lookup(
    code: Code, isNil: bool, duration: nat, joinFails: bool, joinDuration: nat, callerDoneAfter: nat)

  type Script = s: seq<Lookup> | |s| == ATTEMPTS witness seq(ATTEMPTS, i => Lookup(OK, false, 0, false, 0, 0))

  datatype Outcome = Found | NilReply | LookupFailed | ContextEnded | Exhausted(joinError: bool)

  datatype Trace = Trace(report: Option<Report>, outcome: Outcome, lookups: nat, joins: nat, elapsed: nat)

  function AddRounds(t: Trace, n: nat): Trace { t.(lookups := t.lookups + n, joins := t.joins + n) }

  /** After one round the lookup stops with a result, or goes on at a later time. */
  datatype Turn = Stop(t: Trace) | GoOn(elapsed: nat)

  function TurnOf(a: Lookup, i: nat, elapsed: nat): Turn {
    var asked := elapsed + a.duration;
    if a.code == OK then
      Stop(if a.isNil then Trace(None, NilReply, 1, 0, asked) else Trace(Some(SuccessReport), Found, 1, 0, asked))
    else if !Transient(a.code) then Stop(Trace(Some(FailureReport), LookupFailed, 1, 0, asked))
    else
      var now := asked + a.joinDuration;
      if i == ATTEMPTS - 1 then Stop(Trace(Some(FailureReport), Exhausted(a.joinFails), 1, 1, now))
      else
        var wait := WaitLength(a.callerDoneAfter, i, now);
        if wait < Backoff(i) then Stop(Trace(Some(AbortReport), ContextEnded, 1, 1, now + wait))
        else GoOn(now + wait)
  }

  function OwnerFrom(script: Script, i: nat, elapsed: nat): Trace
    requires i < ATTEMPTS
    decreases ATTEMPTS - i
  {
    match TurnOf(script[i], i, elapsed)
    case Stop(t) => t
    case GoOn(later) => AddRounds(OwnerFrom(script, i + 1, later), 1)
  }

  function Settled(c: Circuit, r: Option<Report>, now: int): Circuit {
    match r
    case None => c
    case Some(report) => Reported(c, report, now)
  }

  /** How a single RPC of Join or Leave ends. */
  datatype RpcEnd = Succeeds | FailsContextDone | Fails

  function RpcReport(e: RpcEnd): Report {
    match e
    case Succeeds => SuccessReport
    case FailsContextDone => AbortReport
    case Fails => FailureReport
  }

  class Client {
    const breaker: CircuitBreaker

    constructor ()
      ensures fresh(breaker) && breaker.Fields() == NewCircuit(5, 30000)
    {
      breaker := new CircuitBreaker(5, 30000);
    }

    /** Join and Leave have the same shape: ask, call once, report once. */
    method JoinOrLeave(start: int, e: RpcEnd, finish: int) returns (admitted: bool)
      modifies breaker
      ensures admitted == old(Allowed(breaker.Fields(), start).1)
      ensures breaker.Fields() == Performed(old(breaker.Fields()), SingleCall(start, e, finish))
    {
      admitted := breaker.Allow(start);
      if admitted {
        Conclude(RpcReport(e), finish);
      }
    }

    method Conclude(r: Report, now: int)
      modifies breaker
      ensures breaker.Fields() == Reported(old(breaker.Fields()), r, now)
    {
      match r
      case SuccessReport => breaker.RecordSuccess();
      case FailureReport => breaker.RecordFailure(now);
      case AbortReport => breaker.AbortProbe(now);
    }

    method GetOwner(start: int, script: Script) returns (admitted: bool, trace: Trace)
      modifies breaker
      ensures admitted == old(Allowed(breaker.Fields(), start).1)
      ensures admitted ==> trace == OwnerFrom(script, 0, 0)
      ensures breaker.Fields() == Performed(old(breaker.Fields()), OwnerLookup(start, script))
    {
      admitted := breaker.Allow(start);
      if !admitted {
        return false, Trace(None, ContextEnded, 0, 0, 0);
      }
      trace := Lookups(start, script);
    }

    /** The attempt loop of one admitted lookup. */
    method Lookups(start: int, script: Script) returns (trace: Trace)
      modifies breaker
      ensures trace == OwnerFrom(script, 0, 0)
      ensures breaker.Fields() == Settled(old(breaker.Fields()), trace.report, start + trace.elapsed)
    {
      var elapsed: nat, attempt: nat := 0, 0;
      while attempt < ATTEMPTS
        invariant attempt < ATTEMPTS
        invariant breaker.Fields() == old(breaker.Fields())
        invariant OwnerFrom(script, 0, 0) == AddRounds(OwnerFrom(script, attempt, elapsed), attempt)
        decreases ATTEMPTS - attempt
      {
        var turn := Round(start, elapsed, attempt, script[attempt]);
        if turn.Stop? {
          return AddRounds(turn.t, attempt);
        }
        elapsed := turn.elapsed;
        attempt := attempt + 1;
      }
    }

    /** One lookup, with the rejoin and the wait that may follow it, and the report if it is the last. */
    method Round(start: int, before: nat, attempt: nat, a: Lookup) returns (turn: Turn)
      modifies breaker
      ensures turn == TurnOf(a, attempt, before)
      ensures breaker.Fields() ==
              if turn.Stop? then Settled(old(breaker.Fields()), turn.t.report, start + turn.t.elapsed)
              else old(breaker.Fields())
    {
      var elapsed := before + a.duration;
      if a.code == OK {
        if a.isNil {
          return Stop(Trace(None, NilReply, 1, 0, elapsed));
        }
        Conclude(SuccessReport, start + elapsed);
        return Stop(Trace(Some(SuccessReport), Found, 1, 0, elapsed));
      }
      if !Transient(a.code) {
        Conclude(FailureReport, start + elapsed);
        return Stop(Trace(Some(FailureReport), LookupFailed, 1, 0, elapsed));
      }
      elapsed := elapsed + a.joinDuration;
      if attempt == ATTEMPTS - 1 {
        Conclude(FailureReport, start + elapsed);
        return Stop(Trace(Some(FailureReport), Exhausted(a.joinFails), 1, 1, elapsed));
      }
      var wait := WaitLength(a.callerDoneAfter, attempt, elapsed);
      elapsed := elapsed + wait;
      if wait < Backoff(attempt) {
        Conclude(AbortReport, start + elapsed);
        return Stop(Trace(Some(AbortReport), ContextEnded, 1, 1, elapsed));
      }
      return GoOn(elapsed);
    }
  }

  /** The last lookup made decides the outcome, the report and the rejoins; every earlier one failed
      transiently. Every exit but the nil reply reports exactly once. */
  lemma {:induction false} LastLookupDecides(script: Script, i: nat, elapsed: nat)
    requires i < ATTEMPTS
    ensures var t := OwnerFrom(script, i, elapsed);
            var k := i + t.lookups - 1;
            && i <= k < ATTEMPTS && (forall j :: i <= j < k ==> Transient(script[j].code))
            && t.joins == k - i + (if Transient(script[k].code) then 1 else 0)
            && (t.outcome == Found <==> script[k].code == OK && !script[k].isNil)
            && (t.outcome == NilReply <==> script[k].code == OK && script[k].isNil)
            && (t.outcome == LookupFailed <==> script[k].code == Other)
            && (t.outcome == ContextEnded <==> Transient(script[k].code) && k < ATTEMPTS - 1)
            && (t.outcome.Exhausted? ==> t.outcome.joinError == script[k].joinFails)
            && t.report == (match t.outcome
                            case Found => Some(SuccessReport)
                            case NilReply => None
                            case ContextEnded => Some(AbortReport)
                            case _ => Some(FailureReport))
    decreases ATTEMPTS - i
  {
    var turn := TurnOf(script[i], i, elapsed);
    if turn.Stop? {
    } else {
      LastLookupDecides(script, i + 1, turn.elapsed);
    }
  }

  /** A lookup leaves the probe taken exactly when it was admitted as the probe and met a reply
      that is nil; every other lookup leaves a breaker that can admit again. */
  lemma ProbeLeaksIff(c: Circuit, start: int, script: Script)
    requires Consistent(c) && c.state != HalfOpen && Allowed(c, start).1
    ensures var t := OwnerFrom(script, 0, 0);
            var c' := Settled(Allowed(c, start).0, t.report, start + t.elapsed);
            && Consistent(c')
            && (c'.state == HalfOpen <==> c.state == Open && t.outcome == NilReply)
  {
    LastLookupDecides(script, 0, 0);
  }

  /// Sequences of completed operations on one client

  datatype Operation = SingleCall(start: int, ending: RpcEnd, finish: int) | OwnerLookup(start: int, script: Script)

  function Performed(c: Circuit, op: Operation): Circuit {
    var (c', ok) := Allowed(c, op.start);
    if !ok then c'
    else
      match op
      case SingleCall(_, ending, finish) => Reported(c', RpcReport(ending), finish)
      case OwnerLookup(start, script) =>
        var t := OwnerFrom(script, 0, 0);
        Settled(c', t.report, start + t.elapsed)
  }

  function PerformedAll(c: Circuit, ops: seq<Operation>): Circuit {
    if ops == [] then c else Performed(PerformedAll(c, ops[..|ops| - 1]), ops[|ops| - 1])
  }

  /** The operation is a lookup sent as the probe and answered with a nil reply. */
  predicate Leaks(c: Circuit, op: Operation) {
    op.OwnerLookup? && c.state == Open && Allowed(c, op.start).1 && OwnerFrom(op.script, 0, 0).outcome == NilReply
  }

  predicate LeaksAt(c: Circuit, ops: seq<Operation>, k: nat) {
    k < |ops| && Leaks(PerformedAll(c, ops[..k]), ops[k])
  }

  lemma PerformedLeaksIff(c: Circuit, op: Operation)
    requires Consistent(c)
    ensures Consistent(Performed(c, op))
    ensures Performed(c, op).state == HalfOpen <==> c.state == HalfOpen || Leaks(c, op)
  {
    if op.OwnerLookup? && c.state != HalfOpen && Allowed(c, op.start).1 {
      ProbeLeaksIff(c, op.start, op.script);
    }
  }

  ghost predicate EverLeaked(c: Circuit, ops: seq<Operation>) {
    exists k: nat :: LeaksAt(c, ops, k)
  }

  lemma EverLeakedSnoc(c: Circuit, ops: seq<Operation>)
    requires ops != []
    ensures var n := |ops| - 1;
            EverLeaked(c, ops) <==> EverLeaked(c, ops[..n]) || Leaks(PerformedAll(c, ops[..n]), ops[n])
  {
    var n := |ops| - 1;
    var init := ops[..n];
    forall k: nat | k < n ensures LeaksAt(c, ops, k) <==> LeaksAt(c, init, k) {
      assert init[..k] == ops[..k];
    }
    assert LeaksAt(c, ops, n) <==> Leaks(PerformedAll(c, init), ops[n]);
    if EverLeaked(c, init) {
      var k: nat :| LeaksAt(c, init, k);
      assert LeaksAt(c, ops, k);
    }
  }

  /** Between completed operations the breaker is half-open iff some earlier lookup was the probe and got
      a nil reply; then it refuses everything from there on, and otherwise it admits again once the reset
      timeout has passed. */
  lemma {:induction false} HalfOpenIffLeaked(c: Circuit, ops: seq<Operation>, now: int)
    requires Consistent(c) && c.state != HalfOpen
    ensures var c' := PerformedAll(c, ops);
            && Consistent(c')
            && (c'.state == HalfOpen <==> EverLeaked(c, ops))
            && (c'.state == HalfOpen ==> !Allowed(c', now).1)
            && (c'.state == Open && now - c'.openedAt >= c'.resetTimeout ==> Allowed(c', now).1)
  {
    if ops == [] {
    } else {
      var n := |ops| - 1;
      HalfOpenIffLeaked(c, ops[..n], now);
      PerformedLeaksIff(PerformedAll(c, ops[..n]), ops[n]);
      EverLeakedSnoc(c, ops);
    }
  }

  /** No lookup of the operation gets a nil reply, as the generated client guarantees. */
  predicate RepliesPresent(op: Operation) {
    op.OwnerLookup? ==> forall i :: 0 <= i < ATTEMPTS ==> !op.script[i].isNil
  }

  /** With the generated client no sequence of Join, Leave and GetOwner leaves the breaker half-open: it
      admits iff it is closed or its reset timeout has passed. */
  lemma PresentRepliesHoldNoProbe(c: Circuit, ops: seq<Operation>, now: int)
    requires Consistent(c) && c.state != HalfOpen
    requires forall i :: 0 <= i < |ops| ==> RepliesPresent(ops[i])
    ensures var c' := PerformedAll(c, ops);
            && Consistent(c') && c'.state != HalfOpen
            && (Allowed(c', now).1 <==> c'.state == Closed || now - c'.openedAt >= c'.resetTimeout)
  {
    HalfOpenIffLeaked(c, ops, now);
    forall k: nat | k < |ops| ensures !LeaksAt(c, ops, k) {
      assert RepliesPresent(ops[k]);
      if ops[k].OwnerLookup? {
        LastLookupDecides(ops[k].script, 0, 0);
      }
    }
  }

  /** What a nil reply would do: an open breaker past its reset timeout keeps its probe taken. */
  lemma NilReplyLeaksProbe()
    ensures exists c, start, script: Script ::
              && Consistent(c) && c.state == Open && Allowed(c, start).1
              && Settled(Allowed(c, start).0, OwnerFrom(script, 0, 0).report, start).state == HalfOpen
  {
    var c := Circuit(5, 30000, Open, 5, 0, false);
    var script: Script := seq(ATTEMPTS, i => Lookup(OK, true, 0, false, 0, 0));
    assert OwnerFrom(script, 0, 0).report == None;
    assert Settled(Allowed(c, 30000).0, OwnerFrom(script, 0, 0).report, 30000).state == HalfOpen;
  }

  /// Which report each ending makes

  /** What a finished Join or Leave means to the breaker that admitted it: success closes it and forgets the
      failures, a failure counts or reopens, and a caller that has gone counts for nothing. */
  lemma SingleCallMeaning(c: Circuit, start: int, ending: RpcEnd, finish: int)
    requires Consistent(c) && c.state != HalfOpen && Allowed(c, start).1
    ensures var c' := Performed(c, SingleCall(start, ending, finish));
            match ending
            case Succeeds => c'.state == Closed && c'.failures == 0
            case FailsContextDone =>
              if c.state == Closed then c' == c else c'.state == Open && c'.openedAt == finish
            case Fails =>
              if c.state == Closed && c.failures + 1 < c.failureLimit
              then c'.state == Closed && c'.failures == c.failures + 1
              else c'.state == Open && c'.openedAt == finish
  {
  }

  /** The lookup is retried: the service is unreachable or late, and everybody is quick and waits. */
  predicate Retried(a: Lookup) {
    a.code in {Unavailable, DeadlineExceeded} && a.duration <= 500 && a.joinDuration <= 500 && a.callerDoneAfter >= 300
  }

  /** Three transient failures are each followed by a rejoin and a wait of 100, 200 and 300 ms, and the fourth
      lookup decides. */
  lemma FourthLookupDecides(script: Script)
    requires Retried(script[0]) && Retried(script[1]) && Retried(script[2])
    ensures var a, t := script[3], OwnerFrom(script, 0, 0);
            && t.lookups == 4
            && (a.code == OK && !a.isNil ==> t.outcome == Found && t.report == Some(SuccessReport) && t.joins == 3)
            && (a.code == Other ==> t.outcome == LookupFailed && t.report == Some(FailureReport) && t.joins == 3)
            && (a.code in {Unavailable, DeadlineExceeded} ==>
                  t.outcome == Exhausted(a.joinFails) && t.report == Some(FailureReport) && t.joins == 4)
            && (a.code == Other ==>
                  t.elapsed == script[0].duration + script[0].joinDuration + 100 + script[1].duration + script[1].joinDuration
                               + 200 + script[2].duration + script[2].joinDuration + 300 + a.duration)
  {
    var e1 := script[0].duration + script[0].joinDuration + 100;
    var e2 := e1 + script[1].duration + script[1].joinDuration + 200;
    var e3 := e2 + script[2].duration + script[2].joinDuration + 300;
    assert TurnOf(script[0], 0, 0) == GoOn(e1);
    assert TurnOf(script[1], 1, e1) == GoOn(e2);
    assert TurnOf(script[2], 2, e2) == GoOn(e3);
    assert OwnerFrom(script, 2, e2) == AddRounds(OwnerFrom(script, 3, e3), 1);
    assert OwnerFrom(script, 1, e1) == AddRounds(OwnerFrom(script, 2, e2), 1);
  }

  /** Any other first answer ends the lookup at once; a caller that goes during the first wait ends it then,
      after one rejoin. */
  lemma FirstLookupEnds(script: Script)
    ensures var a, t := script[0], OwnerFrom(script, 0, 0);
            && (a.code == OK && !a.isNil ==> t == Trace(Some(SuccessReport), Found, 1, 0, a.duration))
            && (a.code == Other ==> t == Trace(Some(FailureReport), LookupFailed, 1, 0, a.duration))
            && (a.code in {Unavailable, DeadlineExceeded} && a.duration + a.joinDuration <= 4900 && a.callerDoneAfter < 100 ==>
                  t == Trace(Some(AbortReport), ContextEnded, 1, 1, a.duration + a.joinDuration + a.callerDoneAfter))
  {
  }

  /** The operation's own deadline ends the first wait 5 s after the start, or at once if the lookup and the
      rejoin have lasted longer. */
  lemma DeadlineEnds(script: Script)
    ensures var a, t := script[0], OwnerFrom(script, 0, 0);
            var now := a.duration + a.joinDuration;
            a.code in {Unavailable, DeadlineExceeded} && now > 4900 && a.callerDoneAfter >= 100 ==>
              t == Trace(Some(AbortReport), ContextEnded, 1, 1, if now < 5000 then 5000 else now)
  {
  }
}
