/** The sliding-window limiter of apps/api/internal/gateway/rate_limiter.go. Times are milliseconds. */
module RateLimiter {
  import opened Wrappers

  /** shouldAllowSlidingWindow: a count over the whole history. */
  method ShouldAllowSlidingWindow(timestamps: seq<int>, now: int, rate: int, window: int) returns (ok: bool)
    ensures ok == ShouldAllow(timestamps, now, rate, window)
  {
    if rate <= 0 {
      return false;
    }
    if timestamps == [] {
      return true;
    }
    var cutoff := now - window;
    var inWindow := 0;
    for i := 0 to |timestamps|
      invariant inWindow == CountFrom(timestamps[..i], cutoff)
    {
      CountSnoc(timestamps[..i], timestamps[i], cutoff);
      assert timestamps[..i + 1] == timestamps[..i] + [timestamps[i]];
      if timestamps[i] >= cutoff {
        inWindow := inWindow + 1;
      }
    }
    assert timestamps[..|timestamps|] == timestamps;
    return inWindow < rate;
  }

  function CountFrom(timestamps: seq<int>, cutoff: int): nat {
    if timestamps == [] then 0
    else CountFrom(timestamps[..|timestamps| - 1], cutoff) + if timestamps[|timestamps| - 1] >= cutoff then 1 else 0
  }

  lemma CountSnoc(timestamps: seq<int>, t: int, cutoff: int)
    ensures CountFrom(timestamps + [t], cutoff) == CountFrom(timestamps, cutoff) + if t >= cutoff then 1 else 0
  {
    assert (timestamps + [t])[..|timestamps|] == timestamps;
  }

  predicate ShouldAllow(timestamps: seq<int>, now: int, rate: int, window: int) {
    rate > 0 && CountFrom(timestamps, now - window) < rate
  }

  /** A member of the sorted set is "<now>:<random>"; its score is the same `now`. */
  datatype Member = Member(score: int, suffix: int)

  datatype Expiry = Never | At(time: int)

  /** The sorted set under one key, and the server time after which the server drops it. */
  datatype Window = Window(members: set<Member>, expiry: Expiry)

  const EMPTY := Window({}, Never)

  /** One call: the caller's clock, the server's clock, and the random suffix drawn. */
  datatype Call = Call(now: int, serverNow: int, suffix: int)

  function Kept(w: Window, cutoff: int, serverNow: int): set<Member> {
    if w.expiry.At? && serverNow > w.expiry.time then {}
    else set m | m in w.members && m.score > cutoff
  }

  class Limiter {
    const rate: int
    const window: int
    var state: Window

    constructor (rate: int, window: int)
      ensures this.rate == rate && this.window == window && state == EMPTY
    {
      this.rate, this.window, state := rate, window, EMPTY;
    }

    /** The Lua script: prune, count, add, set the expiry. Rejected calls are added too. */
    method Allow(c: Call) returns (ok: bool)
      modifies this
      ensures (state, ok) == Decide(old(state), c, rate, window)
    {
      var cutoff := c.now - window;
      var members := if state.expiry.At? && c.serverNow > state.expiry.time then {} else state.members;
      members := set m | m in members && m.score > cutoff;
      ok := |members| < rate;
      members := members + {Member(c.now, c.suffix)};
      state := if window + 1000 <= 0 then EMPTY else Window(members, At(c.serverNow + window + 1000));
    }

    /** Up to `n` calls, stopping at the first refusal; `calls` are the calls it would make. */
    method AllowN(n: int, calls: seq<Call>) returns (ok: bool, made: nat)
      requires n <= |calls|
      modifies this
      ensures made <= |calls| && state == Run(old(state), calls[..made], rate, window)
      ensures StopsAtRefusal(Decisions(old(state), calls[..made], rate, window), n, ok)
    {
      made := 0;
      ghost var start, done, ds := state, [], [];
      while made < n
        invariant 0 <= made <= |calls| && (made <= n || made == 0)
        invariant |done| == made && done <= calls && ds == Decisions(start, done, rate, window)
        invariant state == Run(start, done, rate, window)
        invariant |ds| == made && AllAllowed(ds)
        decreases n - made
      {
        PrefixSnoc(calls, done);
        var allowed := AllowNext(start, done, calls[made]);
        done, ds := done + [calls[made]], ds + [allowed];
        made := made + 1;
        if !allowed {
          assert StopsAtRefusal(ds, n, false);
          PrefixIs(calls, done);
          return false, made;
        }
      }
      assert StopsAtRefusal(ds, n, true);
      PrefixIs(calls, done);
      ok := true;
    }

    /** One more call of a sequence. */
    method AllowNext(ghost start: Window, ghost done: seq<Call>, c: Call) returns (ok: bool)
      requires state == Run(start, done, rate, window)
      modifies this
      ensures state == Run(start, done + [c], rate, window)
      ensures Decisions(start, done + [c], rate, window) == Decisions(start, done, rate, window) + [ok]
    {
      RunSnoc(start, done, c, rate, window);
      ok := Allow(c);
    }

    method Reset()
      modifies this
      ensures state == EMPTY
    {
      state := EMPTY;
    }
  }

  lemma PrefixSnoc<T>(all: seq<T>, done: seq<T>)
    requires done <= all && |done| < |all|
    ensures done + [all[|done|]] <= all
  {
  }

  lemma PrefixIs<T>(all: seq<T>, done: seq<T>)
    requires done <= all
    ensures all[..|done|] == done
  {
  }

  predicate AllAllowed(ds: seq<bool>) { forall i :: 0 <= i < |ds| ==> ds[i] }

  /** All of `n` decisions were to allow, or the last one made was the first refusal. */
  predicate StopsAtRefusal(ds: seq<bool>, n: int, ok: bool) {
    if ok then |ds| == (if n < 0 then 0 else n) && AllAllowed(ds)
    else 0 < |ds| <= n && AllAllowed(ds[..|ds| - 1]) && !ds[|ds| - 1]
  }

  function Decide(w: Window, c: Call, rate: int, window: int): (Window, bool) {
    var kept := Kept(w, c.now - window, c.serverNow);
    var w' := if window + 1000 <= 0 then EMPTY
              else Window(kept + {Member(c.now, c.suffix)}, At(c.serverNow + window + 1000));
    (w', |kept| < rate)
  }

  function Run(w: Window, calls: seq<Call>, rate: int, window: int): Window {
    if calls == [] then w
    else Decide(Run(w, calls[..|calls| - 1], rate, window), calls[|calls| - 1], rate, window).0
  }

  function Decisions(w: Window, calls: seq<Call>, rate: int, window: int): (ds: seq<bool>)
    ensures |ds| == |calls|
  {
    if calls == [] then []
    else
      var n := |calls| - 1;
      Decisions(w, calls[..n], rate, window) + [Decide(Run(w, calls[..n], rate, window), calls[n], rate, window).1]
  }

  lemma RunSnoc(w: Window, calls: seq<Call>, c: Call, rate: int, window: int)
    ensures Run(w, calls + [c], rate, window) == Decide(Run(w, calls, rate, window), c, rate, window).0
    ensures Decisions(w, calls + [c], rate, window) ==
            Decisions(w, calls, rate, window) + [Decide(Run(w, calls, rate, window), c, rate, window).1]
  {
    assert (calls + [c])[..|calls|] == calls;
  }

  /// Refinement

  /** The caller's clock never goes back, and the server's clock never gains more than one second on it
      from one call to the next: the slack the extra 1000 ms of the expiry is there for. */
  predicate Timed(calls: seq<Call>) {
    forall i :: 0 < i < |calls| ==>
      && calls[i - 1].now <= calls[i].now
      && calls[i].serverNow - calls[i - 1].serverNow <= calls[i].now - calls[i - 1].now + 1000
  }

  function MemberOf(c: Call): Member { Member(c.now, c.suffix) }

  /** The distinct members the calls ever added, allowed and rejected alike. */
  function Members(calls: seq<Call>): set<Member> {
    if calls == [] then {} else Members(calls[..|calls| - 1]) + {MemberOf(calls[|calls| - 1])}
  }

  function Within(ms: set<Member>, cutoff: int): set<Member> { set m | m in ms && m.score > cutoff }

  lemma {:induction false} ScoresBounded(calls: seq<Call>)
    requires Timed(calls) && calls != []
    ensures forall m :: m in Members(calls) ==> m.score <= calls[|calls| - 1].now
    decreases |calls|
  {
    var n := |calls| - 1;
    if n == 0 {
    } else {
      assert calls[..n][n - 1] == calls[n - 1];
      ScoresBounded(calls[..n]);
    }
  }

  lemma KeptStep(w: Window, last: Call, c: Call, history: set<Member>, rate: int, window: int)
    requires last.now <= c.now && c.serverNow - last.serverNow <= c.now - last.now + 1000
    requires forall m :: m in history ==> m.score <= last.now
    requires Kept(w, last.now - window, last.serverNow) == Within(history, last.now - window)
    ensures Kept(Decide(w, last, rate, window).0, c.now - window, c.serverNow) ==
            Within(history + {MemberOf(last)}, c.now - window)
  {
  }

  /** Pruning and expiry lose nothing: the set counted by a call is the part of the whole history that
      lies inside the window. */
  lemma {:induction false} KeptIsWithin(calls: seq<Call>, c: Call, rate: int, window: int)
    requires Timed(calls + [c])
    ensures Kept(Run(EMPTY, calls, rate, window), c.now - window, c.serverNow) == Within(Members(calls), c.now - window)
    decreases |calls|
  {
    var n := |calls| - 1;
    if calls == [] {
    } else {
      var init, last := calls[..n], calls[n];
      TimedPrefix(calls, c);
      assert init + [last] == calls;
      KeptIsWithin(init, last, rate, window);
      ScoresBounded(calls);
      assert (calls + [c])[n] == last && (calls + [c])[n + 1] == c;
      KeptStep(Run(EMPTY, init, rate, window), last, c, Members(init), rate, window);
    }
  }

  lemma TimedPrefix(calls: seq<Call>, c: Call)
    requires Timed(calls + [c])
    ensures Timed(calls)
  {
    forall i | 0 < i < |calls|
      ensures calls[i - 1].now <= calls[i].now
      ensures calls[i].serverNow - calls[i - 1].serverNow <= calls[i].now - calls[i - 1].now + 1000
    {
      assert (calls + [c])[i] == calls[i] && (calls + [c])[i - 1] == calls[i - 1];
    }
  }

  /** The script allows call `c` after the calls made so far. */
  predicate Allows(calls: seq<Call>, c: Call, rate: int, window: int) {
    Decide(Run(EMPTY, calls, rate, window), c, rate, window).1
  }

  /** The decision of every call, with no premise on the random suffixes: fewer than `rate` distinct
      members of the whole history lie in the last `window` milliseconds. */
  lemma DecidesOnDistinctMembers(calls: seq<Call>, c: Call, rate: int, window: int)
    requires Timed(calls + [c])
    ensures Allows(calls, c, rate, window) <==> |Within(Members(calls), c.now - window)| < rate
  {
    KeptIsWithin(calls, c, rate, window);
  }

  function Times(calls: seq<Call>): seq<int> {
    if calls == [] then [] else Times(calls[..|calls| - 1]) + [calls[|calls| - 1].now]
  }

  /** No two calls later than `cutoff` share their millisecond and their random suffix. */
  predicate DistinctAfter(calls: seq<Call>, cutoff: int) {
    forall i, j :: 0 <= i < j < |calls| && calls[i].now > cutoff && calls[j].now > cutoff ==>
      MemberOf(calls[i]) != MemberOf(calls[j])
  }

  lemma {:induction false} MembersComeFromCalls(calls: seq<Call>, m: Member)
    requires m in Members(calls)
    ensures exists i :: 0 <= i < |calls| && m == MemberOf(calls[i])
    decreases |calls|
  {
    var n := |calls| - 1;
    if m in Members(calls[..n]) {
      MembersComeFromCalls(calls[..n], m);
      var i :| 0 <= i < n && m == MemberOf(calls[..n][i]);
      assert m == MemberOf(calls[i]);
    } else {
      assert m == MemberOf(calls[n]);
    }
  }

  /** One more call adds itself to the count, and its member to the set unless it was there. */
  lemma CountsStep(calls: seq<Call>, cutoff: int)
    requires calls != []
    ensures var n := |calls| - 1;
            var counts, isNew := calls[n].now > cutoff, MemberOf(calls[n]) !in Members(calls[..n]);
            && CountFrom(Times(calls), cutoff + 1) ==
               CountFrom(Times(calls[..n]), cutoff + 1) + (if counts then 1 else 0)
            && |Within(Members(calls), cutoff)| ==
               |Within(Members(calls[..n]), cutoff)| + (if counts && isNew then 1 else 0)
  {
    var n := |calls| - 1;
    var before := Within(Members(calls[..n]), cutoff);
    CountSnoc(Times(calls[..n]), calls[n].now, cutoff + 1);
    assert Within(Members(calls), cutoff) == if calls[n].now > cutoff then before + {MemberOf(calls[n])} else before;
    if calls[n].now > cutoff && MemberOf(calls[n]) in Members(calls[..n]) {
      assert before + {MemberOf(calls[n])} == before;
    }
  }

  /** The calls in the window outnumber its distinct members by the repetitions. */
  lemma {:induction false} DistinctCount(calls: seq<Call>, cutoff: int)
    ensures |Within(Members(calls), cutoff)| <= CountFrom(Times(calls), cutoff + 1)
    ensures |Within(Members(calls), cutoff)| == CountFrom(Times(calls), cutoff + 1) <==> DistinctAfter(calls, cutoff)
    decreases |calls|
  {
    if calls == [] {
    } else {
      DistinctCount(calls[..|calls| - 1], cutoff);
      CountsStep(calls, cutoff);
      LastIsNew(calls, cutoff);
    }
  }

  lemma LastIsNew(calls: seq<Call>, cutoff: int)
    requires calls != []
    ensures var n := |calls| - 1;
            DistinctAfter(calls, cutoff) <==>
              DistinctAfter(calls[..n], cutoff)
              && (calls[n].now > cutoff ==> MemberOf(calls[n]) !in Members(calls[..n]))
  {
    var n := |calls| - 1;
    var init, m := calls[..n], MemberOf(calls[n]);
    if m in Members(init) {
      MembersComeFromCalls(init, m);
      var i :| 0 <= i < n && m == MemberOf(init[i]);
      assert MemberOf(calls[i]) == m;
    }
    forall i | 0 <= i < n ensures MemberOf(calls[i]) in Members(init) {
      CallsAreMembers(init, i);
    }
  }

  lemma {:induction false} CallsAreMembers(calls: seq<Call>, i: nat)
    requires i < |calls|
    ensures MemberOf(calls[i]) in Members(calls)
    decreases |calls|
  {
    if i == |calls| - 1 {
    } else {
      CallsAreMembers(calls[..|calls| - 1], i);
    }
  }

  lemma NeverOvercounts(calls: seq<Call>, cutoff: int)
    ensures |Within(Members(calls), cutoff)| <= CountFrom(Times(calls), cutoff + 1)
  {
    DistinctCount(calls, cutoff);
  }

  /** For a given rate the script decides as shouldAllowSlidingWindow does on the whole history, with the
      window one millisecond shorter, iff the rate does not lie in the gap the repetitions leave. */
  lemma AgreesAtRateIff(calls: seq<Call>, c: Call, rate: int, window: int)
    requires Timed(calls + [c])
    ensures (Allows(calls, c, rate, window) <==>
             ShouldAllow(Times(calls), c.now, rate, window - 1))
            <==>
            !(|Within(Members(calls), c.now - window)| < rate <= CountFrom(Times(calls), c.now - window + 1))
  {
    DecidesOnDistinctMembers(calls, c, rate, window);
    NeverOvercounts(calls, c.now - window);
    assert c.now - (window - 1) == c.now - window + 1;
  }

  /** The script refines the plain count, whatever the rate, iff no two calls inside the window repeat a
      member. */
  lemma RefinesSlidingWindowIff(calls: seq<Call>, c: Call, window: int)
    requires Timed(calls + [c])
    ensures (forall rate :: Allows(calls, c, rate, window) <==>
                            ShouldAllow(Times(calls), c.now, rate, window - 1))
            <==> DistinctAfter(calls, c.now - window)
  {
    DistinctCount(calls, c.now - window);
    forall rate {
      AgreesAtRateIff(calls, c, rate, window);
    }
    var counted := CountFrom(Times(calls), c.now - window + 1);
    AgreesAtRateIff(calls, c, counted, window);
  }

  /** With distinct members in the window the script decides as the plain count over all past calls. */
  lemma RefinesSlidingWindow(calls: seq<Call>, c: Call, rate: int, window: int)
    requires Timed(calls + [c]) && DistinctAfter(calls, c.now - window)
    ensures Allows(calls, c, rate, window) <==>
            ShouldAllow(Times(calls), c.now, rate, window - 1)
  {
    RefinesSlidingWindowIff(calls, c, window);
  }

  /** Any repetition in the window does harm at some limit: the one the plain count has just reached. */
  lemma RepetitionSlipsThrough(calls: seq<Call>, c: Call, window: int)
    requires Timed(calls + [c]) && !DistinctAfter(calls, c.now - window)
    ensures var counted := CountFrom(Times(calls), c.now - window + 1);
            Allows(calls, c, counted, window) && !ShouldAllow(Times(calls), c.now, counted, window - 1)
  {
    FewerThanCounted(calls, c.now - window);
    SlipsThroughAt(calls, c, CountFrom(Times(calls), c.now - window + 1), window);
  }

  lemma SlipsThroughAt(calls: seq<Call>, c: Call, counted: int, window: int)
    requires Timed(calls + [c]) && |Within(Members(calls), c.now - window)| < counted
    requires counted == CountFrom(Times(calls), c.now - window + 1)
    ensures Allows(calls, c, counted, window) && !ShouldAllow(Times(calls), c.now, counted, window - 1)
  {
    DecidesOnDistinctMembers(calls, c, counted, window);
    RefusesAtCount(Times(calls), c.now, window);
  }

  lemma RefusesAtCount(timestamps: seq<int>, now: int, window: int)
    ensures !ShouldAllow(timestamps, now, CountFrom(timestamps, now - window + 1), window - 1)
  {
    assert now - (window - 1) == now - window + 1;
  }

  lemma FewerThanCounted(calls: seq<Call>, cutoff: int)
    requires !DistinctAfter(calls, cutoff)
    ensures |Within(Members(calls), cutoff)| < CountFrom(Times(calls), cutoff + 1)
  {
    DistinctCount(calls, cutoff);
  }

  /** For instance two calls in one millisecond that draw the same suffix: a limit of two lets a third call
      through. */
  lemma RepeatedSuffixSlipsThrough(now: int, suffix: int, other: int, window: int)
    requires window > 0
    ensures var calls, c := [Call(now, now, suffix), Call(now, now, suffix)], Call(now, now, other);
            && Timed(calls + [c])
            && Allows(calls, c, 2, window) && !ShouldAllow(Times(calls), now, 2, window - 1)
  {
    var calls, c := [Call(now, now, suffix), Call(now, now, suffix)], Call(now, now, other);
    assert MemberOf(calls[0]) == MemberOf(calls[1]);
    TwoAreCounted(calls, now - window + 1);
    RepetitionSlipsThrough(calls, c, window);
  }

  lemma TwoAreCounted(calls: seq<Call>, cutoff: int)
    requires |calls| == 2 && calls[0].now >= cutoff && calls[1].now >= cutoff
    ensures CountFrom(Times(calls), cutoff) == 2
  {
    var one := calls[..1];
    assert Times(one[..0]) == [] && Times(one) == [] + [calls[0].now];
    CountSnoc([], calls[0].now, cutoff);
    CountSnoc(Times(one), calls[1].now, cutoff);
  }

  /** The key is dropped one second after the window of its last call, by the server's clock: from then on
      nothing is counted, and until then the call itself still is. */
  lemma IdleKeyExpires(w: Window, c: Call, rate: int, window: int, later: int)
    requires window > 0
    ensures (forall cutoff :: Kept(Decide(w, c, rate, window).0, cutoff, later) == {}) <==>
            later > c.serverNow + window + 1000
  {
    var w' := Decide(w, c, rate, window).0;
    assert Member(c.now, c.suffix) in w'.members;
    if later <= c.serverNow + window + 1000 {
      assert Member(c.now, c.suffix) in Kept(w', c.now - 1, later);
    }
  }

  /// The bound

  /** The allowed calls among the first n with a time in the window that ends at `end`. */
  function AllowedWithin(calls: seq<Call>, rate: int, window: int, end: int): nat {
    if calls == [] then 0
    else
      var n := |calls| - 1;
      AllowedWithin(calls[..n], rate, window, end)
      + if Allows(calls[..n], calls[n], rate, window) && end - window < calls[n].now <= end then 1 else 0
  }

  lemma {:induction false} AllowedWithinCount(calls: seq<Call>, rate: int, window: int, end: int)
    ensures AllowedWithin(calls, rate, window, end) <= CountFrom(Times(calls), end - window + 1)
    decreases |calls|
  {
    var n := |calls| - 1;
    if calls == [] {
    } else {
      AllowedWithinCount(calls[..n], rate, window, end);
      CountSnoc(Times(calls[..n]), calls[n].now, end - window + 1);
    }
  }

  /** An allowed call finds fewer than `rate` calls in every window that ends no earlier and repeats no
      member. */
  lemma AllowedHasRoom(init: seq<Call>, last: Call, rate: int, window: int, end: int)
    requires Timed(init + [last]) && DistinctAfter(init, end - window) && last.now <= end
    requires Allows(init, last, rate, window)
    ensures CountFrom(Times(init), end - window + 1) < rate
  {
    DecidesOnDistinctMembers(init, last, rate, window);
    DistinctCount(init, end - window);
    SubsetSize(Within(Members(init), end - window), Within(Members(init), last.now - window));
  }

  lemma DistinctPrefix(calls: seq<Call>, n: nat, cutoff: int)
    requires DistinctAfter(calls, cutoff) && n <= |calls|
    ensures DistinctAfter(calls[..n], cutoff)
  {
  }

  /** One more call keeps the bound: if it is allowed, there was room for it. */
  lemma BoundStep(init: seq<Call>, last: Call, rate: int, window: int, end: int)
    requires Timed(init + [last]) && DistinctAfter(init, end - window)
    requires AllowedWithin(init, rate, window, end) <= if rate < 0 then 0 else rate
    ensures AllowedWithin(init + [last], rate, window, end) <= if rate < 0 then 0 else rate
  {
    var calls := init + [last];
    assert calls[..|calls| - 1] == init;
    if Allows(init, last, rate, window) && last.now <= end {
      AllowedHasRoom(init, last, rate, window, end);
      AllowedWithinCount(init, rate, window, end);
    }
  }

  /** At most `rate` calls are allowed in any `window` milliseconds in which no member repeats. */
  lemma {:induction false} RateBound(calls: seq<Call>, rate: int, window: int, end: int)
    requires Timed(calls) && DistinctAfter(calls, end - window)
    ensures AllowedWithin(calls, rate, window, end) <= if rate < 0 then 0 else rate
    decreases |calls|
  {
    if calls == [] {
    } else {
      var n := |calls| - 1;
      var init, last := calls[..n], calls[n];
      assert init + [last] == calls;
      TimedPrefix(init, last);
      DistinctPrefix(calls, n, end - window);
      RateBound(init, rate, window, end);
      BoundStep(init, last, rate, window, end);
    }
  }
}
