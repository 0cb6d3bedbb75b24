/** Webhook delivery of apps/api/internal/webhook/dispatcher.go: at most three requests per
    call, each reported to the breaker of the target URL. */
module Dispatcher {
  import opened Breaker

  const MAX_ATTEMPTS := 3

  /** What the world does to one attempt. `at` is the clock when the attempt ends; `waitCancelled`
      says that the caller's context ends during the backoff that would follow. */
  datatype Attempt =
    | BadRequest
    | NetworkError(at: int, contextDone: bool, waitCancelled: bool)
    | Response(status: int, at: int, waitCancelled: bool)

  type Script = s: seq<Attempt> | |s| == MAX_ATTEMPTS witness [BadRequest, BadRequest, BadRequest]

  datatype SendResult = CircuitOpen | RequestInvalid | Cancelled | Exhausted | Permanent(status: int) | Delivered

  predicate Retryable(a: Attempt) {
    (a.NetworkError? && !a.contextDone) || (a.Response? && a.status >= 500)
  }

  /** The breaker, the result and the number of requests sent, from attempt `i` on. */
  function SendFrom(c: Circuit, script: Script, i: nat): (Circuit, SendResult, nat)
    requires i < MAX_ATTEMPTS
    decreases MAX_ATTEMPTS - i
  {
    var a := script[i];
    if a.BadRequest? then (Succeeded(c), RequestInvalid, 0)
    else if Retryable(a) then
      var c' := Failed(c, a.at);
      if i == MAX_ATTEMPTS - 1 then (c', Exhausted, 1)
      else if a.waitCancelled then (c', Cancelled, 1)
      else var r := SendFrom(c', script, i + 1); (r.0, r.1, r.2 + 1)
    else if a.NetworkError? then (Aborted(c, a.at), Cancelled, 1)
    else (Succeeded(c), if a.status >= 400 then Permanent(a.status) else Delivered, 1)
  }

  function Sent(c: Circuit, allowAt: int, script: Script): (Circuit, SendResult, nat) {
    var (c', ok) := Allowed(c, allowAt);
    if ok then SendFrom(c', script, 0) else (c', CircuitOpen, 0)
  }

  /** A dispatcher as a value: the breakers in use by URL, and the limits a new one gets. */
  datatype Breakers = Breakers(used: map<string, Circuit>, failureLimit: int, resetTimeout: int) {
    /** The breaker state a URL has: a fresh one until it is first used. */
    function Of(url: string): Circuit {
      if url in used then used[url] else NewCircuit(failureLimit, resetTimeout)
    }

    function With(url: string, c: Circuit): Breakers { this.(used := used[url := c]) }
  }

  function SentTo(b: Breakers, url: string, allowAt: int, script: Script): (Breakers, SendResult, nat) {
    var r := Sent(b.Of(url), allowAt, script);
    (b.With(url, r.0), r.1, r.2)
  }

  lemma WithTwice(b: Breakers, url: string, first: Circuit, second: Circuit)
    ensures b.With(url, first).With(url, second) == b.With(url, second)
    ensures b.With(url, first).Of(url) == first
  {
  }

  class Dispatcher {
    const failureLimit: int
    const resetTimeout: int
    var breakers: map<string, CircuitBreaker>

    /** One breaker object per URL, never shared, each in a reachable state. */
    ghost predicate Valid()
      reads this, breakers.Values
    {
      && (forall u, v :: u in breakers && v in breakers && u != v ==> breakers[u] != breakers[v])
      && (forall u :: u in breakers ==> Consistent(breakers[u].Fields()))
    }

    ghost function Snapshot(): Breakers
      reads this, breakers.Values
    {
      Breakers(map u | u in breakers :: breakers[u].Fields(), failureLimit, resetTimeout)
    }

    constructor (failureLimit: int, resetTimeout: int)
      ensures Valid() && Snapshot() == Breakers(map[], failureLimit, resetTimeout)
      ensures breakers == map[]
    {
      this.failureLimit, this.resetTimeout := failureLimit, resetTimeout;
      breakers := map[];
    }

    method BreakerFor(url: string) returns (b: CircuitBreaker)
      requires Valid()
      modifies this
      ensures Valid()
      ensures url in breakers && breakers[url] == b
      ensures url in old(breakers) ==> breakers == old(breakers)
      ensures url !in old(breakers) ==> fresh(b) && breakers == old(breakers)[url := b]
      ensures Snapshot() == old(Snapshot()).With(url, old(Snapshot()).Of(url))
    {
      if url in breakers {
        return breakers[url];
      }
      b := new CircuitBreaker(failureLimit, resetTimeout);
      breakers := breakers[url := b];
    }

    method Send(url: string, allowAt: int, script: Script) returns (result: SendResult, requests: nat)
      requires Valid()
      modifies this, breakers.Values
      ensures Valid()
      ensures fresh(breakers.Values - old(breakers.Values))
      ensures (Snapshot(), result, requests) == SentTo(old(Snapshot()), url, allowAt, script)
    {
      var b := BreakerFor(url);
      WithTwice(old(Snapshot()), url, old(Snapshot()).Of(url), Sent(old(Snapshot()).Of(url), allowAt, script).0);
      result, requests := Guarded(b, url, allowAt, script);
    }

    /** Asks the breaker of the URL, then makes the attempts. */
    method Guarded(b: CircuitBreaker, url: string, allowAt: int, script: Script) returns (result: SendResult, requests: nat)
      requires Valid() && url in breakers && b == breakers[url]
      modifies b
      ensures Valid()
      ensures (Snapshot(), result, requests) == SentTo(old(Snapshot()), url, allowAt, script)
    {
      var ok := b.Allow(allowAt);
      if !ok {
        result, requests := CircuitOpen, 0;
      } else {
        result, requests := Deliver(b, script);
      }
      assert forall u :: u in breakers && u != url ==> breakers[u].Fields() == old(breakers[u].Fields());
      assert Snapshot().used == old(Snapshot()).With(url, b.Fields()).used;
    }
  }

  /** The attempt loop of one admitted call. */
  method Deliver(b: CircuitBreaker, script: Script) returns (result: SendResult, requests: nat)
    requires Consistent(b.Fields())
    modifies b
    ensures Consistent(b.Fields())
    ensures (b.Fields(), result, requests) == SendFrom(old(b.Fields()), script, 0)
  {
    requests := 0;
    var attempt := 0;
    while attempt < MAX_ATTEMPTS
      invariant 0 <= attempt < MAX_ATTEMPTS
      invariant Consistent(b.Fields())
      invariant var r := SendFrom(b.Fields(), script, attempt);
                SendFrom(old(b.Fields()), script, 0) == (r.0, r.1, r.2 + requests)
      decreases MAX_ATTEMPTS - attempt
    {
      var a := script[attempt];
      if a.BadRequest? {
        b.RecordSuccess();
        return RequestInvalid, requests;
      }
      requests := requests + 1;
      if a.NetworkError? {
        if a.contextDone {
          b.AbortProbe(a.at);
          return Cancelled, requests;
        }
      } else if a.status < 500 {
        b.RecordSuccess();
        return if a.status >= 400 then Permanent(a.status) else Delivered, requests;
      }
      b.RecordFailure(a.at);
      if attempt == MAX_ATTEMPTS - 1 {
        return Exhausted, requests;
      }
      if a.waitCancelled {
        return Cancelled, requests;
      }
      attempt := attempt + 1;
    }
  }

  /** The first attempt that is not retried decides the call. */
  lemma {:induction false} FirstDecisiveAttemptDecides(c: Circuit, script: Script, i: nat, k: nat)
    requires i <= k < MAX_ATTEMPTS
    requires forall j :: i <= j < k ==> Retryable(script[j]) && !script[j].waitCancelled
    ensures Retryable(script[k]) && k == MAX_ATTEMPTS - 1 ==> SendFrom(c, script, i).1 == Exhausted
    ensures Retryable(script[k]) && k < MAX_ATTEMPTS - 1 && script[k].waitCancelled ==> SendFrom(c, script, i).1 == Cancelled
    ensures !Retryable(script[k]) ==>
              SendFrom(c, script, i).1 == match script[k]
                                          case BadRequest => RequestInvalid
                                          case NetworkError(_, _, _) => Cancelled
                                          case Response(status, _, _) => if status >= 400 then Permanent(status) else Delivered
    ensures (!Retryable(script[k]) || k == MAX_ATTEMPTS - 1 || script[k].waitCancelled) ==>
              SendFrom(c, script, i).2 == k - i + if script[k].BadRequest? then 0 else 1
    decreases k - i
  {
    if i == k {
    } else {
      FirstDecisiveAttemptDecides(Failed(c, script[i].at), script, i + 1, k);
    }
  }

  /** A request fails when it gets no answer although the caller still waits, or an answer of 500 or more. */
  predicate RequestFails(a: Attempt) {
    match a
    case BadRequest => false
    case NetworkError(_, contextDone, _) => !contextDone
    case Response(status, _, _) => status >= 500
  }

  /** What an attempt tells the breaker: an answer below 500 is a success whatever it says, and so is a
      request that cannot be built; a caller that has gone aborts. */
  function EventOf(a: Attempt): Event {
    match a
    case BadRequest => Success(0)
    case NetworkError(at, contextDone, _) => if contextDone then Abort(at) else Failure(at)
    case Response(status, at, _) => if status < 500 then Success(at) else Failure(at)
  }

  function EventsOf(script: Script, i: nat, n: nat): seq<Event>
    requires i + n <= 3
    decreases n
  {
    if n == 0 then [] else [EventOf(script[i])] + EventsOf(script, i + 1, n - 1)
  }

  function ResultOf(a: Attempt, last: bool): SendResult {
    match a
    case BadRequest => RequestInvalid
    case NetworkError(_, contextDone, _) => if !contextDone && last then Exhausted else Cancelled
    case Response(status, _, _) =>
      if status < 400 then Delivered else if status < 500 then Permanent(status)
      else if last then Exhausted else Cancelled
  }

  /** An admitted call makes attempts until one does not fail, the caller gives up waiting, or three have
      been made; every attempt reports once, and the last one gives the result. */
  lemma {:induction false} CallMeaning(c: Circuit, script: Script, i: nat) returns (n: nat)
    requires i < 3
    ensures 1 <= n <= 3 - i
    ensures forall j :: i <= j < i + n - 1 ==> RequestFails(script[j]) && !script[j].waitCancelled
    ensures i + n < 3 ==> !RequestFails(script[i + n - 1]) || script[i + n - 1].waitCancelled
    ensures var last := script[i + n - 1];
            SendFrom(c, script, i) ==
            (Run(c, EventsOf(script, i, n)), ResultOf(last, i + n == 3), if last.BadRequest? then n - 1 else n)
    decreases 3 - i
  {
    if i == 2 || !RequestFails(script[i]) || script[i].waitCancelled {
      n := 1;
      assert EventsOf(script, i, 1) == [EventOf(script[i])];
      assert [EventOf(script[i])][1..] == [];
    } else {
      n := CallMeaning(Failed(c, script[i].at), script, i + 1);
      assert EventsOf(script, i, n + 1)[1..] == EventsOf(script, i + 1, n);
      n := n + 1;
    }
  }

  /** A URL that has not been used yet has a closed breaker with the dispatcher's limits. */
  lemma UnusedUrl(b: Breakers, url: string)
    requires url !in b.used && b.failureLimit >= 1 && b.resetTimeout >= 0
    ensures b.Of(url).failureLimit == b.failureLimit && b.Of(url).resetTimeout == b.resetTimeout
    ensures Consistent(b.Of(url)) && b.Of(url).state == Closed && b.Of(url).failures == 0
  {
  }

  /** Calls to one URL never touch the breaker of another. */
  lemma UrlsAreIndependent(b: Breakers, url: string, other: string, allowAt: int, script: Script)
    requires other != url
    ensures SentTo(b, url, allowAt, script).0.Of(other) == b.Of(other)
    ensures SentTo(b, url, allowAt, script).0.Of(url) == Sent(b.Of(url), allowAt, script).0
  {
  }

  /** Every exit of a call gives back the probe it took. */
  lemma {:induction false} SendFromReleasesProbe(c: Circuit, script: Script, i: nat)
    requires Consistent(c) && i < MAX_ATTEMPTS
    ensures Consistent(SendFrom(c, script, i).0) && SendFrom(c, script, i).0.state != HalfOpen
    ensures SendFrom(c, script, i).2 <= MAX_ATTEMPTS - i
    decreases MAX_ATTEMPTS - i
  {
    if Retryable(script[i]) && i < MAX_ATTEMPTS - 1 && !script[i].waitCancelled {
      SendFromReleasesProbe(Failed(c, script[i].at), script, i + 1);
    }
  }

  datatype Call = Call(allowAt: int, script: Script)

  function After(c: Circuit, calls: seq<Call>): Circuit
    decreases |calls|
  {
    if calls == [] then c else After(Sent(c, calls[0].allowAt, calls[0].script).0, calls[1..])
  }

  /** Between completed calls of one sequential caller the breaker is never half-open, so it admits
      again as soon as the reset timeout has passed. */
  lemma {:induction false} NoLeakedProbe(c: Circuit, calls: seq<Call>, now: int)
    requires Consistent(c) && c.state != HalfOpen
    ensures var c' := After(c, calls);
            Consistent(c') && c'.state != HalfOpen &&
            (now - c'.openedAt >= c'.resetTimeout ==> Allowed(c', now).1)
    decreases |calls|
  {
    if calls == [] {
    } else {
      var (c', ok) := Allowed(c, calls[0].allowAt);
      if ok {
        SendFromReleasesProbe(c', calls[0].script, 0);
      }
      NoLeakedProbe(Sent(c, calls[0].allowAt, calls[0].script).0, calls[1..], now);
    }
  }

  /// The load bound: a receiver that keeps failing is asked at a bounded rate.

  predicate Fails(a: Attempt) {
    Retryable(a) && !a.waitCancelled
  }

  predicate FailingCall(call: Call) {
    && Fails(call.script[0]) && Fails(call.script[1]) && Fails(call.script[2])
    && call.allowAt <= call.script[0].at <= call.script[1].at <= call.script[2].at
  }

  /** Calls made one after another from time `from`, every attempt failing, none after `end`. */
  predicate FailingRun(calls: seq<Call>, from: int, end: int) {
    calls != [] ==>
      && FailingCall(calls[0]) && from <= calls[0].allowAt <= end
      && FailingRun(calls[1..], calls[0].script[2].at, end)
  }

  function Admissions(c: Circuit, calls: seq<Call>): nat
    decreases |calls|
  {
    if calls == [] then 0
    else (if Allowed(c, calls[0].allowAt).1 then 1 else 0)
         + Admissions(Sent(c, calls[0].allowAt, calls[0].script).0, calls[1..])
  }

  function Requests(c: Circuit, calls: seq<Call>): nat
    decreases |calls|
  {
    if calls == [] then 0
    else var s := Sent(c, calls[0].allowAt, calls[0].script); s.2 + Requests(s.0, calls[1..])
  }

  function CeilThird(n: nat): nat { (n + 2) / 3 }

  function Latest(a: int, b: int): int { if a < b then b else a }

  /** What one failing call does. */
  lemma FailingSend(c: Circuit, call: Call)
    requires Consistent(c) && c.state != HalfOpen && FailingCall(call)
    ensures var s := Sent(c, call.allowAt, call.script);
            && Consistent(s.0) && s.0.state != HalfOpen
            && s.0.failureLimit == c.failureLimit && s.0.resetTimeout == c.resetTimeout
            && (!Allowed(c, call.allowAt).1 ==> s.0 == c && s.2 == 0)
            && (Allowed(c, call.allowAt).1 ==> s.2 == 3)
            && (c.state == Open && Allowed(c, call.allowAt).1 ==>
                  s.0.state == Open && s.0.openedAt == call.script[0].at)
            && (c.state == Closed && c.failures + 3 < c.failureLimit ==>
                  s.0.state == Closed && s.0.failures == c.failures + 3)
            && (c.state == Closed && c.failures + 3 >= c.failureLimit ==>
                  s.0.state == Open && call.allowAt <= s.0.openedAt <= call.script[2].at)
  {
    var (c0, ok) := Allowed(c, call.allowAt);
    if ok {
      var c1 := Failed(c0, call.script[0].at);
      var c2 := Failed(c1, call.script[1].at);
      var c3 := Failed(c2, call.script[2].at);
      assert SendFrom(c2, call.script, 2) == (c3, Exhausted, 1);
      assert SendFrom(c1, call.script, 1) == (c3, Exhausted, 2);
      assert SendFrom(c0, call.script, 0) == (c3, Exhausted, 3);
    }
  }

  /** `n` admissions from time `from` to `end` are paid for in reset timeouts: all but the first of an open
      breaker, all but the failures a closed one still tolerates. */
  predicate PaidFor(c: Circuit, n: nat, from: int, end: int)
    requires Consistent(c)
  {
    && (c.state == Open && n > 0 ==>
          (n - 1) * c.resetTimeout <= end - Latest(from, c.openedAt + c.resetTimeout))
    && (c.state == Closed && n > CeilThird(c.failureLimit - c.failures) ==>
          (n - CeilThird(c.failureLimit - c.failures)) * c.resetTimeout <= end - from)
  }

  lemma OneMore(m: int, d: int)
    ensures (m - 1) * d + d == m * d
  {
  }

  lemma CallIsPaidFor(c: Circuit, call: Call, m: nat, from: int, end: int)
    requires Consistent(c) && c.state != HalfOpen && c.resetTimeout > 0 && FailingCall(call)
    requires from <= call.allowAt <= end
    requires var after := Sent(c, call.allowAt, call.script).0;
             Consistent(after) && PaidFor(after, m, call.script[2].at, end)
    ensures PaidFor(c, m + if Allowed(c, call.allowAt).1 then 1 else 0, from, end)
  {
    FailingSend(c, call);
    OneMore(m, c.resetTimeout);
    var after := Sent(c, call.allowAt, call.script).0;
    if Allowed(c, call.allowAt).1 && c.state == Closed && after.state == Closed {
      assert CeilThird(c.failureLimit - c.failures) == CeilThird(after.failureLimit - after.failures) + 1;
    }
  }

  /** Time is paid for admissions, three requests each. */
  lemma {:induction false} AdmissionsCostTime(c: Circuit, calls: seq<Call>, from: int, end: int)
    requires Consistent(c) && c.state != HalfOpen && c.resetTimeout > 0
    requires FailingRun(calls, from, end)
    ensures Requests(c, calls) == 3 * Admissions(c, calls)
    ensures PaidFor(c, Admissions(c, calls), from, end)
    decreases |calls|
  {
    if calls == [] {
    } else {
      var call := calls[0];
      var after := Sent(c, call.allowAt, call.script).0;
      FailingSend(c, call);
      AdmissionsCostTime(after, calls[1..], call.script[2].at, end);
      CallIsPaidFor(c, call, Admissions(after, calls[1..]), from, end);
    }
  }

  lemma QuotientBound(k: int, d: int, n: int)
    requires d > 0
    ensures k > n / d ==> k * d > n
  {
    if k > n / d {
      assert (k - n / d - 1) * d >= 0;
    }
  }

  /** In any span of L milliseconds a failing receiver is admitted at most
      ceil(failureLimit / 3) + floor(L / resetTimeout) times, three requests each. */
  lemma LoadBound(c: Circuit, calls: seq<Call>, from: int, span: nat)
    requires Consistent(c) && c.state != HalfOpen && c.resetTimeout > 0
    requires FailingRun(calls, from, from + span)
    ensures Admissions(c, calls) <= CeilThird(c.failureLimit) + span / c.resetTimeout
    ensures Requests(c, calls) <= 3 * (CeilThird(c.failureLimit) + span / c.resetTimeout)
  {
    AdmissionsCostTime(c, calls, from, from + span);
    var n := Admissions(c, calls);
    var free: nat := if c.state == Open then 1 else CeilThird(c.failureLimit - c.failures);
    assert free <= CeilThird(c.failureLimit);
    QuotientBound(if n > free then n - free else 0, c.resetTimeout, span);
  }
}
