/** The circuit breaker of apps/api/internal/breaker: three states, one probe slot.
    Times are milliseconds read from the breaker's clock. */
module Breaker {

  datatype CircuitState = Closed | Open | HalfOpen

  /** The fields of a breaker as a value. */
  datatype Circuit = Circuit(
    failureLimit: int, resetTimeout: int,
    state: CircuitState, failures: int, openedAt: int, probeInFlight: bool)

  /** A new breaker; the configured limits are clamped to usable values. */
  function NewCircuit(failureLimit: int, resetTimeout: int): Circuit {
    Circuit(
      if failureLimit < 1 then 1 else failureLimit,
      if resetTimeout < 0 then 0 else resetTimeout,
      Closed, 0, 0, false)
  }

  /** What every reachable breaker satisfies: the half-open state and the probe slot go together,
      and a breaker that is not closed has counted exactly its limit. */
  predicate Consistent(c: Circuit) {
    && 1 <= c.failureLimit && 0 <= c.resetTimeout
    && 0 <= c.failures <= c.failureLimit
    && (c.state == HalfOpen <==> c.probeInFlight)
    && (c.state == Closed <==> c.failures < c.failureLimit)
    && (c.state != Closed <==> c.failures == c.failureLimit)
  }

  function Reopened(c: Circuit, now: int): Circuit {
    c.(state := Open, openedAt := now, probeInFlight := false)
  }

  function Allowed(c: Circuit, now: int): (r: (Circuit, bool))
    ensures Consistent(c) ==> (r.1 <==> c.state == Closed || (c.state == Open && now - c.openedAt >= c.resetTimeout))
    ensures Consistent(c) && r.1 && c.state != Closed ==> r.0 == c.(state := HalfOpen, probeInFlight := true)
    ensures Consistent(c) && (!r.1 || c.state == Closed) ==> r.0 == c
  {
    if c.state == Open && now - c.openedAt < c.resetTimeout then (c, false)
    else
      var c' := if c.state == Open then c.(state := HalfOpen) else c;
      if c'.state != HalfOpen then (c', true)
      else if c'.probeInFlight then (c', false)
      else (c'.(probeInFlight := true), true)
  }

  function Succeeded(c: Circuit): Circuit {
    if c.state == HalfOpen && c.probeInFlight then c.(state := Closed, failures := 0, probeInFlight := false)
    else if c.state == Closed then c.(failures := 0)
    else c
  }

  function Failed(c: Circuit, now: int): Circuit {
    if c.state == HalfOpen && c.probeInFlight then Reopened(c, now)
    else if c.state != Closed then c
    else
      var c' := c.(failures := c.failures + 1);
      if c'.failures >= c'.failureLimit then Reopened(c', now) else c'
  }

  function Aborted(c: Circuit, now: int): Circuit {
    if c.state == HalfOpen && c.probeInFlight then Reopened(c, now) else c
  }

  /** The one result a caller owes the breaker for an admitted request. */
  datatype Report = SuccessReport | FailureReport | AbortReport

  function Reported(c: Circuit, r: Report, now: int): Circuit {
    match r
    case SuccessReport => Succeeded(c)
    case FailureReport => Failed(c, now)
    case AbortReport => Aborted(c, now)
  }

  class CircuitBreaker {
    const failureLimit: int
    const resetTimeout: int
    var state: CircuitState
    var failures: int
    var openedAt: int
    var probeInFlight: bool

    function Fields(): Circuit
      reads this
    {
      Circuit(failureLimit, resetTimeout, state, failures, openedAt, probeInFlight)
    }

    constructor (failureLimit: int, resetTimeout: int)
      ensures Fields() == NewCircuit(failureLimit, resetTimeout)
      ensures Consistent(Fields())
    {
      this.failureLimit := if failureLimit < 1 then 1 else failureLimit;
      this.resetTimeout := if resetTimeout < 0 then 0 else resetTimeout;
      state, failures, openedAt, probeInFlight := Closed, 0, 0, false;
    }

    method Allow(now: int) returns (ok: bool)
      modifies this
      ensures (Fields(), ok) == Allowed(old(Fields()), now)
      ensures old(Consistent(Fields())) ==> Consistent(Fields())
    {
      if state == Open {
        if now - openedAt < resetTimeout {
          return false;
        }
        state := HalfOpen;
      }
      if state == HalfOpen {
        if probeInFlight {
          return false;
        }
        probeInFlight := true;
      }
      return true;
    }

    method RecordSuccess()
      modifies this
      ensures Fields() == Succeeded(old(Fields()))
      ensures old(Consistent(Fields())) ==> Consistent(Fields()) && state != HalfOpen
    {
      if state == HalfOpen && probeInFlight {
        state, failures, probeInFlight := Closed, 0, false;
        return;
      }
      if state == Closed {
        failures := 0;
      }
    }

    method RecordFailure(now: int)
      modifies this
      ensures Fields() == Failed(old(Fields()), now)
      ensures old(Consistent(Fields())) ==> Consistent(Fields()) && state != HalfOpen
    {
      if state == HalfOpen && probeInFlight {
        OpenLocked(now);
        return;
      }
      if state != Closed {
        return;
      }
      failures := failures + 1;
      if failures >= failureLimit {
        OpenLocked(now);
      }
    }

    method AbortProbe(now: int)
      modifies this
      ensures Fields() == Aborted(old(Fields()), now)
      ensures old(Consistent(Fields())) ==> Consistent(Fields()) && state != HalfOpen
    {
      if state == HalfOpen && probeInFlight {
        OpenLocked(now);
      }
    }

    method OpenLocked(now: int)
      modifies this
      ensures Fields() == Reopened(old(Fields()), now)
    {
      state, openedAt, probeInFlight := Open, now, false;
    }
  }

  /// Runs: any interleaving of calls by any number of goroutines (each call holds the mutex).

  datatype Event = Ask(now: int) | Success(now: int) | Failure(now: int) | Abort(now: int)

  function Step(c: Circuit, e: Event): Circuit {
    match e
    case Ask(now) => Allowed(c, now).0
    case Success(_) => Succeeded(c)
    case Failure(now) => Failed(c, now)
    case Abort(now) => Aborted(c, now)
  }

  function Run(c: Circuit, es: seq<Event>): Circuit
    decreases |es|
  {
    if es == [] then c else Run(Step(c, es[0]), es[1..])
  }

  /** The clock never runs backwards along the run. */
  predicate Timed(es: seq<Event>) {
    forall i, j :: 0 <= i < j < |es| ==> es[i].now <= es[j].now
  }

  /** Every reachable state of every breaker is consistent. */
  lemma {:induction false} MachineInvariant(failureLimit: int, resetTimeout: int, es: seq<Event>)
    ensures Consistent(Run(NewCircuit(failureLimit, resetTimeout), es))
  {
    RunConsistent(NewCircuit(failureLimit, resetTimeout), es);
  }

  lemma {:induction false} RunConsistent(c: Circuit, es: seq<Event>)
    requires Consistent(c)
    ensures Consistent(Run(c, es))
    decreases |es|
  {
    if es == [] {
    } else {
      RunConsistent(Step(c, es[0]), es[1..]);
    }
  }

  /** No request is admitted within the reset timeout of an opening, whatever happens in between. */
  lemma {:induction false} NoAdmissionAfterOpening(c: Circuit, opening: Event, es: seq<Event>, now: int)
    requires Consistent(c) && c.state != Open && Step(c, opening).state == Open
    requires Timed([opening] + es + [Ask(now)])
    requires now - opening.now < c.resetTimeout
    ensures !Allowed(Run(Step(c, opening), es), now).1
  {
    var all := [opening] + es + [Ask(now)];
    forall i | 0 <= i < |es| ensures es[i].now <= now {
      assert all[i + 1] == es[i] && all[|es| + 1] == Ask(now);
    }
    OpenStays(Step(c, opening), es, now);
  }

  lemma {:induction false} OpenStays(c: Circuit, es: seq<Event>, now: int)
    requires Consistent(c) && c.state == Open
    requires forall i :: 0 <= i < |es| ==> es[i].now <= now
    requires now - c.openedAt < c.resetTimeout
    ensures Run(c, es) == c
    decreases |es|
  {
    if es == [] {
    } else {
      assert es[0].now <= now;
      assert Step(c, es[0]) == c;
      OpenStays(c, es[1..], now);
    }
  }

  /** Between two half-open admissions some caller reports a result or aborts. */
  lemma {:induction false} OneProbeAtATime(c: Circuit, first: int, es: seq<Event>, second: int)
    requires Consistent(c) && c.state != Closed
    requires Allowed(c, first).1
    requires Allowed(Run(Allowed(c, first).0, es), second).1
    ensures exists i :: 0 <= i < |es| && !es[i].Ask?
  {
    if forall i :: 0 <= i < |es| ==> es[i].Ask? {
      AsksKeepProbe(Allowed(c, first).0, es);
    }
  }

  lemma {:induction false} AsksKeepProbe(c: Circuit, es: seq<Event>)
    requires Consistent(c) && c.state == HalfOpen
    requires forall i :: 0 <= i < |es| ==> es[i].Ask?
    ensures Run(c, es) == c
    decreases |es|
  {
    if es == [] {
    } else {
      assert es[0].Ask?;
      AsksKeepProbe(c, es[1..]);
    }
  }

  /// What reports do, state by state, and when a closed circuit opens

  /** Usable limits are taken as they are; a limit below one becomes one, a negative timeout none. */
  lemma LimitsTaken(failureLimit: int, resetTimeout: int)
    ensures var c := NewCircuit(failureLimit, resetTimeout);
            && (failureLimit >= 1 && resetTimeout >= 0 ==>
                  c.failureLimit == failureLimit && c.resetTimeout == resetTimeout)
            && (failureLimit < 1 ==> c.failureLimit == 1) && (resetTimeout < 0 ==> c.resetTimeout == 0)
            && c.state == Closed && c.failures == 0
  {
  }

  /** The probe's report decides: success closes the circuit and forgets the failures, failure and abort
      reopen it for a whole reset timeout from then. */
  lemma ProbeDecides(c: Circuit, now: int, later: int)
    requires Consistent(c) && c.state == HalfOpen
    ensures var s, f, a := Reported(c, SuccessReport, now), Reported(c, FailureReport, now), Reported(c, AbortReport, now);
            && s.state == Closed && s.failures == 0
            && f.state == Open && a.state == Open
            && (Allowed(f, later).1 <==> later - now >= c.resetTimeout)
            && (Allowed(a, later).1 <==> later - now >= c.resetTimeout)
  {
  }

  /** Late reports leave an open circuit as it is, and an abort leaves a closed one as it is. */
  lemma LateReportsIgnored(c: Circuit, r: Report, now: int)
    requires Consistent(c)
    ensures c.state == Open || (c.state == Closed && r == AbortReport) ==> Reported(c, r, now) == c
  {
  }

  lemma {:induction false} RunSnoc(c: Circuit, es: seq<Event>, e: Event)
    ensures Run(c, es + [e]) == Step(Run(c, es), e)
    decreases |es|
  {
    if es == [] {
      assert [e][1..] == [];
    } else {
      assert (es + [e])[1..] == es[1..] + [e];
      RunSnoc(Step(c, es[0]), es[1..], e);
    }
  }

  function FailuresIn(es: seq<Event>): nat {
    if es == [] then 0 else FailuresIn(es[1..]) + if es[0].Failure? then 1 else 0
  }

  lemma {:induction false} FailuresSnoc(es: seq<Event>, e: Event)
    ensures FailuresIn(es + [e]) == FailuresIn(es) + if e.Failure? then 1 else 0
    decreases |es|
  {
    if es == [] {
      assert [e][1..] == [];
    } else {
      assert (es + [e])[1..] == es[1..] + [e];
      FailuresSnoc(es[1..], e);
    }
  }

  lemma {:induction false} FewerFailuresLater(es: seq<Event>, i: nat)
    requires i <= |es|
    ensures FailuresIn(es[i..]) <= FailuresIn(es)
    decreases i
  {
    if i == 0 {
      assert es[0..] == es;
    } else {
      assert es[1..][i - 1..] == es[i..];
      FewerFailuresLater(es[1..], i - 1);
    }
  }

  predicate NoSuccess(es: seq<Event>) { forall i :: 0 <= i < |es| ==> !es[i].Success? }

  /** The circuit is closed in every state of the run. */
  ghost predicate ClosedThroughout(c: Circuit, es: seq<Event>) {
    forall n: nat :: n <= |es| ==> Run(c, es[..n]).state == Closed
  }

  lemma ClosedPrefix(c: Circuit, es: seq<Event>, e: Event)
    requires ClosedThroughout(c, es + [e])
    ensures ClosedThroughout(c, es)
  {
    forall n: nat | n <= |es| ensures Run(c, es[..n]).state == Closed {
      assert (es + [e])[..n] == es[..n];
    }
  }

  /** While it stays closed, a circuit that starts without failures counts those since the last success:
      the stretch that begins at `i`. */
  lemma {:induction false} CountsSinceSuccess(c: Circuit, es: seq<Event>) returns (i: nat)
    requires Consistent(c) && c.failures == 0 && ClosedThroughout(c, es)
    ensures i <= |es| && NoSuccess(es[i..]) && Run(c, es).failures == FailuresIn(es[i..])
    ensures i > 0 ==> es[i - 1].Success?
    decreases |es|
  {
    if es == [] {
      i := 0;
    } else {
      var n := |es| - 1;
      var init, e := es[..n], es[n];
      assert es == init + [e];
      ClosedPrefix(c, init, e);
      i := CountsSinceSuccess(c, init);
      RunSnoc(c, init, e);
      RunConsistent(c, init);
      assert init[..n] == init && es[..|es|] == es;
      if e.Success? {
        i := |es|;
      } else {
        assert es[i..] == init[i..] + [e];
        FailuresSnoc(init[i..], e);
      }
    }
  }

  /** `failureLimit` failures, or more, with no success between them, up to the end of the run. */
  ghost predicate EndsInStreak(es: seq<Event>, limit: int) {
    exists i: nat :: i <= |es| && NoSuccess(es[i..]) && FailuresIn(es[i..]) >= limit
  }

  lemma StreakStartsAfterSuccess(es: seq<Event>, j: nat, i: nat)
    requires j <= |es| && i <= |es| && (i > 0 ==> es[i - 1].Success?)
    ensures NoSuccess(es[j..]) ==> j >= i
  {
    if j < i {
      assert es[j..][i - 1 - j] == es[i - 1];
    }
  }

  /** When the last stretch without success begins at `i`, one more event completes a streak iff it is the
      failure that is missing. */
  lemma StreakCompletes(es: seq<Event>, e: Event, i: nat, limit: int)
    requires i <= |es| && NoSuccess(es[i..]) && (i > 0 ==> es[i - 1].Success?) && FailuresIn(es[i..]) < limit
    ensures EndsInStreak(es + [e], limit) <==> e.Failure? && FailuresIn(es[i..]) + 1 >= limit
  {
    var all := es + [e];
    assert all[i..] == es[i..] + [e];
    FailuresSnoc(es[i..], e);
    if e.Failure? && FailuresIn(es[i..]) + 1 >= limit {
      assert NoSuccess(all[i..]);
    }
    if EndsInStreak(all, limit) {
      var j: nat :| j <= |all| && NoSuccess(all[j..]) && FailuresIn(all[j..]) >= limit;
      StreakStartsAfterSuccess(all, j, i);
      assert all[i..][j - i..] == all[j..];
      FewerFailuresLater(all[i..], j - i);
    }
  }

  /** A circuit that has been closed so far opens at an event iff the run then ends in `failureLimit`
      failures with no success between them. */
  lemma OpensIff(c: Circuit, es: seq<Event>, e: Event)
    requires Consistent(c) && c.failures == 0 && ClosedThroughout(c, es)
    ensures Run(c, es + [e]).state != Closed <==> EndsInStreak(es + [e], c.failureLimit)
  {
    var i := CountsSinceSuccess(c, es);
    RunSnoc(c, es, e);
    RunConsistent(c, es);
    assert es[..|es|] == es;
    KeepsLimits(c, es);
    StreakCompletes(es, e, i, c.failureLimit);
  }

  lemma {:induction false} KeepsLimits(c: Circuit, es: seq<Event>)
    ensures Run(c, es).failureLimit == c.failureLimit && Run(c, es).resetTimeout == c.resetTimeout
    decreases |es|
  {
    if es == [] {
    } else {
      KeepsLimits(Step(c, es[0]), es[1..]);
    }
  }

  /** After a success that finds the circuit not open, also the probe's, fewer than `failureLimit` failures
      leave it closed, whoever asks or aborts in between. */
  lemma {:induction false} SuccessForgetsFailures(c: Circuit, es: seq<Event>)
    requires Consistent(c) && c.state != Open
    requires NoSuccess(es) && FailuresIn(es) < c.failureLimit
    ensures var c' := Run(Succeeded(c), es); c'.state == Closed && c'.failures == FailuresIn(es)
    decreases |es|
  {
    if es == [] {
    } else {
      var n := |es| - 1;
      var init, e := es[..n], es[n];
      assert es == init + [e];
      FailuresSnoc(init, e);
      SuccessForgetsFailures(c, init);
      RunSnoc(Succeeded(c), init, e);
      KeepsLimits(Succeeded(c), init);
    }
  }

  /// Any number of callers at once. An admitted caller owes the breaker at least one report; the webhook
  /// dispatcher makes up to three for one admission.

  type Caller = nat

  datatype Shared = Shared(circuit: Circuit, owing: set<Caller>)

  datatype Move =
    | AskFor(caller: Caller, askedAt: int)
    | ReportFor(caller: Caller, report: Report, reportedAt: int, last: bool)

  predicate Possible(s: Shared, m: Move) {
    match m
    case AskFor(caller, _) => caller !in s.owing
    case ReportFor(caller, _, _, _) => caller in s.owing
  }

  function Moved(s: Shared, m: Move): Shared
    requires Possible(s, m)
  {
    match m
    case AskFor(caller, at) =>
      var (c, ok) := Allowed(s.circuit, at);
      Shared(c, if ok then s.owing + {caller} else s.owing)
    case ReportFor(caller, r, at, last) =>
      Shared(Reported(s.circuit, r, at), if last then s.owing - {caller} else s.owing)
  }

  predicate PossibleMoves(s: Shared, ms: seq<Move>)
    decreases |ms|
  {
    ms == [] || (Possible(s, ms[0]) && PossibleMoves(Moved(s, ms[0]), ms[1..]))
  }

  function MovedAll(s: Shared, ms: seq<Move>): Shared
    requires PossibleMoves(s, ms)
    decreases |ms|
  {
    if ms == [] then s else MovedAll(Moved(s, ms[0]), ms[1..])
  }

  /** In every interleaving of any number of callers a half-open breaker is waiting for somebody: when all
      admitted callers have reported, it admits iff it is closed or the reset timeout has passed. */
  lemma {:induction false} HalfOpenAwaitsReport(s: Shared, ms: seq<Move>, now: int)
    requires Consistent(s.circuit) && (s.circuit.state == HalfOpen ==> s.owing != {})
    requires PossibleMoves(s, ms)
    ensures var s' := MovedAll(s, ms);
            && Consistent(s'.circuit) && s'.circuit.resetTimeout == s.circuit.resetTimeout
            && (s'.circuit.state == HalfOpen ==> s'.owing != {})
            && (s'.owing == {} ==>
                  (Allowed(s'.circuit, now).1 <==>
                     s'.circuit.state == Closed || now - s'.circuit.openedAt >= s.circuit.resetTimeout))
    decreases |ms|
  {
    if ms == [] {
    } else {
      MoveAwaitsReport(s, ms[0]);
      HalfOpenAwaitsReport(Moved(s, ms[0]), ms[1..], now);
    }
  }

  lemma MoveAwaitsReport(s: Shared, m: Move)
    requires Consistent(s.circuit) && (s.circuit.state == HalfOpen ==> s.owing != {}) && Possible(s, m)
    ensures Consistent(Moved(s, m).circuit) && Moved(s, m).circuit.resetTimeout == s.circuit.resetTimeout
    ensures Moved(s, m).circuit.state == HalfOpen ==> Moved(s, m).owing != {}
  {
    if m.AskFor? && Allowed(s.circuit, m.askedAt).1 {
      assert m.caller in Moved(s, m).owing;
    }
  }

  /// Callers that report: one caller at a time, each admitted call reporting exactly once.

  datatype Use = Use(askAt: int, report: Report, reportAt: int)

  function Used(c: Circuit, u: Use): Circuit {
    var (c', ok) := Allowed(c, u.askAt);
    if ok then Reported(c', u.report, u.reportAt) else c'
  }

  function AfterUses(c: Circuit, uses: seq<Use>): Circuit {
    if uses == [] then c else Used(AfterUses(c, uses[..|uses| - 1]), uses[|uses| - 1])
  }

  /** Whatever a call's one report is, it leaves no probe behind. */
  lemma ReportReleasesProbe(c: Circuit, u: Use)
    requires Consistent(c) && c.state != HalfOpen
    ensures Consistent(Used(c, u)) && Used(c, u).state != HalfOpen
    ensures Used(c, u).resetTimeout == c.resetTimeout
  {
  }

  /** Between completed calls the breaker is never half-open, and it admits whenever it is closed or the
      reset timeout has passed. */
  lemma {:induction false} UsesHoldNoProbe(c: Circuit, uses: seq<Use>, now: int)
    requires Consistent(c) && c.state != HalfOpen
    ensures var c' := AfterUses(c, uses);
            && Consistent(c') && c'.state != HalfOpen && c'.resetTimeout == c.resetTimeout
            && (Allowed(c', now).1 <==> c'.state == Closed || now - c'.openedAt >= c.resetTimeout)
  {
    if uses == [] {
    } else {
      var init := uses[..|uses| - 1];
      UsesHoldNoProbe(c, init, now);
      ReportReleasesProbe(AfterUses(c, init), uses[|uses| - 1]);
    }
  }
}
