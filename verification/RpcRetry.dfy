/** The retry loop of apps/api/internal/rpcretry/retry.go. Durations are milliseconds. */
module RpcRetry {
  import opened Breaker
  import opened RpcTiming

  const MAX_ATTEMPTS := 4
  const RPC_TIMEOUT := 1000

  /** One call and the wait after it: how long the call takes, how it ends, whether the caller's
      context has ended by then, and how long after the call the caller's context would end. */
  datatype Attempt = Attempt(code: Code, duration: nat, callerDone: bool, callerDoneAfter: nat)

  type Script = s: seq<Attempt> | |s| == MAX_ATTEMPTS witness seq(MAX_ATTEMPTS, i => Attempt(OK, 0, false, 0))

  datatype Outcome = Replied | ContextEnded | CallFailed(code: Code)

  datatype Trace = Trace(report: Report, outcome: Outcome, calls: nat, elapsed: nat)

  function AddCalls(t: Trace, n: nat): Trace { t.(calls := t.calls + n) }

  /** After one attempt the operation stops with a result, or goes on at a later time. */
  datatype Turn = Stop(t: Trace) | GoOn(elapsed: nat)

  function TurnOf(a: Attempt, i: nat, elapsed: nat): Turn {
    var now := elapsed + a.duration;
    if a.code == OK then Stop(Trace(SuccessReport, Replied, 1, now))
    else if a.callerDone || now >= OP_TIMEOUT then Stop(Trace(AbortReport, ContextEnded, 1, now))
    else if !Transient(a.code) || i == MAX_ATTEMPTS - 1 then Stop(Trace(FailureReport, CallFailed(a.code), 1, now))
    else
      var wait := WaitLength(a.callerDoneAfter, i, now);
      if wait < Backoff(i) then Stop(Trace(AbortReport, ContextEnded, 1, now + wait)) else GoOn(now + wait)
  }

  function DoFrom(script: Script, i: nat, elapsed: nat): Trace
    requires i < MAX_ATTEMPTS
    decreases MAX_ATTEMPTS - i
  {
    match TurnOf(script[i], i, elapsed)
    case Stop(t) => t
    case GoOn(later) => AddCalls(DoFrom(script, i + 1, later), 1)
  }

  /** Asks the breaker, if there is one, then makes the attempts. */
  method Do(cb: CircuitBreaker?, start: int, script: Script) returns (admitted: bool, trace: Trace)
    modifies cb
    ensures admitted <==> cb == null || old(Allowed(cb.Fields(), start).1)
    ensures admitted ==> trace == DoFrom(script, 0, 0)
    ensures !admitted ==> trace.calls == 0
    ensures cb != null ==> cb.Fields() == Used(old(cb.Fields()), UseOf(Operation(start, script)))
  {
    if cb != null {
      var ok := cb.Allow(start);
      if !ok {
        return false, Trace(AbortReport, ContextEnded, 0, 0);
      }
    }
    admitted := true;
    trace := Attempts(cb, start, script);
  }

  method Attempts(cb: CircuitBreaker?, start: int, script: Script) returns (trace: Trace)
    modifies cb
    ensures trace == DoFrom(script, 0, 0)
    ensures cb != null ==> cb.Fields() == Reported(old(cb.Fields()), trace.report, start + trace.elapsed)
  {
    var elapsed: nat, attempt: nat := 0, 0;
    while attempt < MAX_ATTEMPTS
      invariant attempt < MAX_ATTEMPTS
      invariant cb != null ==> cb.Fields() == old(cb.Fields())
      invariant DoFrom(script, 0, 0) == AddCalls(DoFrom(script, attempt, elapsed), attempt)
      decreases MAX_ATTEMPTS - attempt
    {
      var a := script[attempt];
      ghost var turn := TurnOf(a, attempt, elapsed);
      elapsed := elapsed + a.duration;
      if a.code == OK {
        Conclude(cb, SuccessReport, start + elapsed);
        return Trace(SuccessReport, Replied, attempt + 1, elapsed);
      }
      if a.callerDone || elapsed >= OP_TIMEOUT {
        Conclude(cb, AbortReport, start + elapsed);
        return Trace(AbortReport, ContextEnded, attempt + 1, elapsed);
      }
      if !Transient(a.code) || attempt == MAX_ATTEMPTS - 1 {
        Conclude(cb, FailureReport, start + elapsed);
        return Trace(FailureReport, CallFailed(a.code), attempt + 1, elapsed);
      }
      var wait := WaitLength(a.callerDoneAfter, attempt, elapsed);
      elapsed := elapsed + wait;
      if wait < Backoff(attempt) {
        Conclude(cb, AbortReport, start + elapsed);
        return Trace(AbortReport, ContextEnded, attempt + 1, elapsed);
      }
      assert turn == GoOn(elapsed);
      attempt := attempt + 1;
    }
  }

  /** Reports to the breaker, if there is one. */
  method Conclude(cb: CircuitBreaker?, r: Report, now: int)
    modifies cb
    ensures cb != null ==> cb.Fields() == Reported(old(cb.Fields()), r, now)
  {
    if cb != null {
      match r
      case SuccessReport => cb.RecordSuccess();
      case FailureReport => cb.RecordFailure(now);
      case AbortReport => cb.AbortProbe(now);
    }
  }

  datatype Operation = Operation(start: int, script: Script)

  function UseOf(op: Operation): Use {
    var t := DoFrom(op.script, 0, 0);
    Use(op.start, t.report, op.start + t.elapsed)
  }

  function UsesOf(ops: seq<Operation>): seq<Use> { seq(|ops|, i requires 0 <= i < |ops| => UseOf(ops[i])) }

  /** Operations run one after another never leave their breaker half-open: it always admits again once
      the reset timeout has passed. */
  lemma OperationsHoldNoProbe(c: Circuit, ops: seq<Operation>, now: int)
    requires Consistent(c) && c.state != HalfOpen
    ensures var c' := AfterUses(c, UsesOf(ops));
            && Consistent(c') && c'.state != HalfOpen
            && (Allowed(c', now).1 <==> c'.state == Closed || now - c'.openedAt >= c.resetTimeout)
  {
    UsesHoldNoProbe(c, UsesOf(ops), now);
  }

  /** The time and calls spent from attempt `i` on, when every call respects its own limit: at most
      one second a call and the waits that remain. */
  function Budget(i: nat): nat
    requires i < MAX_ATTEMPTS
    decreases MAX_ATTEMPTS - i
  {
    RPC_TIMEOUT + if i == MAX_ATTEMPTS - 1 then 0 else Backoff(i) + Budget(i + 1)
  }

  lemma {:induction false} DoFromBounded(script: Script, i: nat, elapsed: nat)
    requires i < MAX_ATTEMPTS
    requires forall a :: a in script ==> a.duration <= RPC_TIMEOUT
    requires elapsed + Budget(i) < OP_TIMEOUT
    ensures var t := DoFrom(script, i, elapsed);
            && 1 <= t.calls <= MAX_ATTEMPTS - i
            && t.elapsed <= elapsed + Budget(i)
            && (t.outcome == ContextEnded <==> t.report == AbortReport)
            && (t.outcome == Replied <==> t.report == SuccessReport)
            && (t.outcome == ContextEnded ==>
                  exists k :: i <= k < MAX_ATTEMPTS && (script[k].callerDone || script[k].callerDoneAfter < Backoff(k)))
    decreases MAX_ATTEMPTS - i
  {
    assert script[i] in script;
    var turn := TurnOf(script[i], i, elapsed);
    if turn.Stop? {
    } else {
      DoFromBounded(script, i + 1, turn.elapsed);
    }
  }

  /** If every call keeps its one-second limit, an operation makes at most four calls, ends within
      4.6 s (so its own 5 s deadline never fires), and ends for its context only if the caller's
      context ended. */
  lemma WithinDeadline(script: Script)
    requires forall a :: a in script ==> a.duration <= RPC_TIMEOUT
    ensures var t := DoFrom(script, 0, 0);
            && 1 <= t.calls <= 4
            && t.elapsed <= 4600 < 5000
            && (t.outcome == ContextEnded ==>
                  exists k :: 0 <= k < MAX_ATTEMPTS && (script[k].callerDone || script[k].callerDoneAfter < Backoff(k)))
  {
    assert Budget(3) == 1000;
    assert Budget(2) == 2300;
    assert Budget(1) == 3500;
    assert Budget(0) == 4600;
    DoFromBounded(script, 0, 0);
  }

  /** The loop goes on after attempt `i`, begun at `elapsed`: a transient failure, neither context has
      ended, and the whole wait fits before the caller's context and the operation deadline end. */
  predicate Continues(a: Attempt, i: nat, elapsed: nat) {
    && a.code in {Unavailable, DeadlineExceeded} && !a.callerDone && a.callerDoneAfter >= 100 * (i + 1)
    && elapsed + a.duration < 5000 && elapsed + a.duration + 100 * (i + 1) <= 5000
  }

  /** Attempt `k` is made, when attempt `i` begins at `elapsed`. */
  predicate Reaches(script: Script, i: nat, elapsed: nat, k: nat)
    decreases MAX_ATTEMPTS - i
  {
    && i <= k < MAX_ATTEMPTS
    && (i < k ==>
          && Continues(script[i], i, elapsed)
          && Reaches(script, i + 1, elapsed + script[i].duration + Backoff(i), k))
  }

  /** Some attempt is made and succeeds. */
  ghost predicate Wins(script: Script, i: nat, elapsed: nat) {
    exists k: nat :: k < MAX_ATTEMPTS && Reaches(script, i, elapsed, k) && script[k].code == OK
  }

  lemma WinsUnfold(script: Script, i: nat, elapsed: nat)
    requires i < MAX_ATTEMPTS
    ensures Wins(script, i, elapsed) <==>
            || script[i].code == OK
            || (Continues(script[i], i, elapsed) && i + 1 < MAX_ATTEMPTS
                && Wins(script, i + 1, elapsed + script[i].duration + Backoff(i)))
  {
    var later := elapsed + script[i].duration + Backoff(i);
    if script[i].code == OK {
      assert Reaches(script, i, elapsed, i);
    } else if Wins(script, i, elapsed) {
      var k: nat :| k < MAX_ATTEMPTS && Reaches(script, i, elapsed, k) && script[k].code == OK;
      assert Reaches(script, i + 1, later, k);
    }
  }

  lemma TurnMeaning(a: Attempt, i: nat, elapsed: nat)
    requires i < MAX_ATTEMPTS
    ensures var turn := TurnOf(a, i, elapsed);
            && (turn.GoOn? <==> Continues(a, i, elapsed) && i + 1 < MAX_ATTEMPTS)
            && (turn.GoOn? ==> turn.elapsed == elapsed + a.duration + Backoff(i))
            && (turn.Stop? ==> (turn.t.outcome == Replied <==> a.code == OK))
  {
  }

  /** The caller gets a reply iff some attempt is made and succeeds; attempt `k` is made iff every earlier
      one failed transiently and its whole wait fitted before both deadlines. */
  lemma {:induction false} RepliesIff(script: Script, i: nat, elapsed: nat)
    requires i < MAX_ATTEMPTS
    ensures DoFrom(script, i, elapsed).outcome == Replied <==> Wins(script, i, elapsed)
    decreases MAX_ATTEMPTS - i
  {
    var turn := TurnOf(script[i], i, elapsed);
    TurnMeaning(script[i], i, elapsed);
    WinsUnfold(script, i, elapsed);
    if turn.Stop? {
    } else {
      RepliesIff(script, i + 1, turn.elapsed);
    }
  }

  /// Which report each ending makes

  lemma {:induction false} ReportOfOutcome(script: Script, i: nat, elapsed: nat)
    requires i < MAX_ATTEMPTS
    ensures var t := DoFrom(script, i, elapsed);
            t.report == match t.outcome
                        case Replied => SuccessReport
                        case ContextEnded => AbortReport
                        case CallFailed(_) => FailureReport
    decreases MAX_ATTEMPTS - i
  {
    var turn := TurnOf(script[i], i, elapsed);
    if turn.Stop? {
    } else {
      ReportOfOutcome(script, i + 1, turn.elapsed);
    }
  }

  /** The service is unreachable or late, and the caller waits. */
  predicate Retried(a: Attempt) {
    a.code in {Unavailable, DeadlineExceeded} && a.duration <= 1000 && !a.callerDone && a.callerDoneAfter >= 300
  }

  /** Three transient failures are retried after 100, 200 and 300 ms, and the fourth call decides. */
  lemma FourthCallDecides(script: Script)
    requires Retried(script[0]) && Retried(script[1]) && Retried(script[2])
    requires script[3].duration <= 1000 && !script[3].callerDone
    ensures var t := DoFrom(script, 0, 0);
            && t.calls == 4
            && t.elapsed == script[0].duration + 100 + script[1].duration + 200 + script[2].duration + 300 + script[3].duration
            && t.outcome == (if script[3].code == OK then Replied else CallFailed(script[3].code))
  {
    var e1 := script[0].duration + 100;
    var e2 := e1 + script[1].duration + 200;
    var e3 := e2 + script[2].duration + 300;
    assert TurnOf(script[0], 0, 0) == GoOn(e1);
    assert TurnOf(script[1], 1, e1) == GoOn(e2);
    assert TurnOf(script[2], 2, e2) == GoOn(e3);
    assert DoFrom(script, 2, e2) == AddCalls(DoFrom(script, 3, e3), 1);
    assert DoFrom(script, 1, e1) == AddCalls(DoFrom(script, 2, e2), 1);
  }

  /** Any other failure ends the operation at once, and so does a caller that has gone, during the call or
      during the wait after it. */
  lemma FirstCallEnds(script: Script)
    ensures var a, t := script[0], DoFrom(script, 0, 0);
            && (a.code == OK ==> t == Trace(SuccessReport, Replied, 1, a.duration))
            && (a.code != OK && a.callerDone ==> t == Trace(AbortReport, ContextEnded, 1, a.duration))
            && (a.code == Other && !a.callerDone && a.duration < 5000 ==>
                  t == Trace(FailureReport, CallFailed(Other), 1, a.duration))
            && (a.code in {Unavailable, DeadlineExceeded} && !a.callerDone && a.duration <= 1000 && a.callerDoneAfter < 100 ==>
                  t == Trace(AbortReport, ContextEnded, 1, a.duration + a.callerDoneAfter))
  {
  }

  /** The operation's own deadline ends it 5 s after its start: at the end of a first call that lasts longer,
      and during the wait after one that ends less than 100 ms before. */
  lemma DeadlineEnds(script: Script)
    ensures var a, t := script[0], DoFrom(script, 0, 0);
            && (a.code != OK && a.duration >= 5000 ==> t == Trace(AbortReport, ContextEnded, 1, a.duration))
            && (a.code in {Unavailable, DeadlineExceeded} && !a.callerDone
                && 4900 < a.duration < 5000 && a.callerDoneAfter >= 100 ==>
                  t == Trace(AbortReport, ContextEnded, 1, 5000))
  {
  }
}
