// How many calls an outage costs a provider: at least and at most, under any
// load, within one process and over restarts.

module OutageCost {
  import opened Common
  import opened Logs
  import opened Resilience

  // Every use starts in the window and would fail.
  ghost predicate FailsThroughout(uses: seq<Attempt>, from: Time, length: nat) {
    forall i :: 0 <= i < |uses| ==> !uses[i].ok && from <= uses[i].start <= from + length
  }

  // The time that k trials take at least.
  function Span(k: int, gap: nat): nat
    decreases if k <= 0 then 0 else k
  {
    if k <= 0 then 0 else gap + Span(k - 1, gap)
  }

  // Where a breaker that was once closed stands when all calls since `from`
  // have failed, the latest of them started at `last`, and there were n of
  // them, less Trip() for every new process that started in between.
  ghost predicate OutageProgress(s: Settings, c: Circuit, n: int, from: Time, last: Time) {
    match c
    case Closed(failures) => failures < s.Trip() && from + Span(n - failures, s.TrialGap()) <= last
    case Open(expiry) => last + s.Timeout() <= expiry && from + Span(n - s.Trip(), s.TrialGap()) <= last
    case HalfOpen(_, _) => false
  }

  // A failed trial follows the latest call by more than the open timeout.
  lemma OutageCall(s: Settings, c: Circuit, n: int, from: Time, last: Time, a: Attempt)
    requires OutageProgress(s, c, n, from, last) && !a.ok && last <= a.start <= a.end && Admits(s, c, a.start)
    ensures OutageProgress(s, Step(s, c, a), n + 1, from, a.start)
  {
    if c.Open? {
      assert n + 1 - s.Trip() - 1 == n - s.Trip();
    } else if c.failures + 1 < s.consecutiveFailures {
      assert n + 1 - (c.failures + 1) == n - c.failures;
    } else {
      assert n + 1 - s.Trip() == n - c.failures;
    }
  }

  lemma {:induction false} SpanGrows(k: int, l: int, gap: nat)
    requires k <= l
    ensures Span(k, gap) <= Span(l, gap)
    decreases l - k
  {
    if k < l {
      SpanGrows(k, l - 1, gap);
    }
  }

  // A new process gives the provider another Trip() calls and no more.
  lemma OutageRestart(s: Settings, c: Circuit, n: int, from: Time, last: Time)
    requires OutageProgress(s, c, n, from, last)
    ensures OutageProgress(s, INITIAL, n - s.Trip(), from, last)
  {
    if c.Closed? {
      SpanGrows(n - s.Trip(), n - c.failures, s.TrialGap());
    }
  }

  // How many trials fit in a window.
  function Fits(length: nat, gap: nat): nat
    requires 1 <= gap
  {
    if length < gap then 0 else 1 + Fits(length - gap, gap)
  }

  lemma {:induction false} SpanFits(k: int, gap: nat, length: nat)
    requires 1 <= gap && Span(k, gap) <= length
    ensures k <= Fits(length, gap)
    decreases if k <= 0 then 0 else k
  {
    if k > 0 {
      SpanFits(k - 1, gap, length - gap);
    }
  }

  lemma {:induction false} FitsSpan(length: nat, gap: nat)
    requires 1 <= gap
    ensures Span(Fits(length, gap), gap) <= length
  {
    if gap <= length {
      FitsSpan(length - gap, gap);
    }
  }

  // The most calls that a provider failing all of them for this long can get
  // from one process and those that follow it.
  function Most(s: Settings, restarts: nat, length: nat): nat {
    Span(restarts + 1, s.Trip()) + Fits(length, s.TrialGap())
  }

  lemma MostInNumbers(s: Settings, restarts: nat, length: nat)
    ensures Most(s, restarts, length) == (restarts + 1) * s.Trip() + length / s.TrialGap()
  {
    SpanIsProduct(restarts + 1, s.Trip());
    FitsIsQuotient(length, s.TrialGap());
  }

  lemma {:induction false} SpanIsProduct(k: nat, gap: nat)
    ensures Span(k, gap) == k * gap
  {
    if k > 0 {
      SpanIsProduct(k - 1, gap);
      assert k * gap == (k - 1) * gap + gap;
    }
  }

  lemma FitsIsQuotient(length: nat, gap: nat)
    requires 1 <= gap
    ensures Fits(length, gap) == length / gap
  {
    var k, q := Fits(length, gap), length / gap;
    FitsSpan(length, gap);
    SpanIsProduct(k, gap);
    QuotientBound(k, gap, length);
    SpanIsProduct(q, gap);
    SpanFits(q, gap, length);
  }

  lemma TimesKeepsOrder(a: int, b: int, factor: nat)
    requires a <= b
    ensures a * factor <= b * factor
  {
  }

  lemma QuotientBound(k: int, gap: nat, length: nat)
    requires 1 <= gap && k * gap <= length
    ensures k <= length / gap
  {
    var q := length / gap;
    if k > q {
      TimesKeepsOrder(q + 1, k, gap);
    }
  }

  lemma OutageBound(s: Settings, c: Circuit, n: int, from: Time, last: Time, length: nat)
    requires OutageProgress(s, c, n, from, last) && last <= from + length
    ensures n <= s.Trip() + Fits(length, s.TrialGap())
  {
    SpanFits(n - if c.Closed? then c.failures else s.Trip(), s.TrialGap(), length);
  }

  lemma {:induction false} OutageReplay(s: Settings, c: Circuit, uses: seq<Attempt>, from: Time, length: nat)
    returns (last: Time)
    requires c.Closed? && Settled(s, c) && Ordered(uses) && FailsThroughout(uses, from, length)
    ensures OutageProgress(s, Replay(s, c, uses), RealCalls(s, c, uses), from, last)
    ensures last == from || (uses != [] && last <= uses[|uses| - 1].start)
  {
    last := from;
    if uses != [] {
      var before, use := uses[..|uses| - 1], uses[|uses| - 1];
      last := OutageReplay(s, c, before, from, length);
      if Admits(s, Replay(s, c, before), use.start) {
        assert before != [] ==> before[|before| - 1].start <= use.start;
        OutageCall(s, Replay(s, c, before), RealCalls(s, c, before), from, last, use);
        last := use.start;
      }
    }
  }

  // Starting closed, a sequential consumer under any load reaches a provider
  // that fails every call at most Trip() times plus once per opening that fits
  // in the window.
  lemma OutageCallBound(s: Settings, c: Circuit, uses: seq<Attempt>, from: Time, length: nat)
    requires c.Closed? && Settled(s, c) && Ordered(uses)
    requires FailsThroughout(uses, from, length)
    ensures RealCalls(s, c, uses) <= Most(s, 0, length)
  {
    var last := OutageReplay(s, c, uses, from, length);
    OutageBound(s, Replay(s, c, uses), RealCalls(s, c, uses), from, last, length);
  }

  // The eager consumer: Trip() failures at once, then a trial as soon as each
  // opening has expired.
  function WorstStart(s: Settings, from: Time, i: int): Time {
    from + Span(i + 1 - s.Trip(), s.TrialGap())
  }

  function WorstCase(s: Settings, from: Time, n: nat): (uses: seq<Attempt>)
    ensures |uses| == n
    ensures forall i :: 0 <= i < n ==>
      uses[i] == Attempt(WorstStart(s, from, i), WorstStart(s, from, i), false)
  {
    if n == 0 then []
    else WorstCase(s, from, n - 1) + [Attempt(WorstStart(s, from, n - 1), WorstStart(s, from, n - 1), false)]
  }

  lemma {:induction false} WorstCaseReplay(s: Settings, from: Time, n: nat)
    ensures RealCalls(s, INITIAL, WorstCase(s, from, n)) == n
    ensures Replay(s, INITIAL, WorstCase(s, from, n)) ==
            if n < s.Trip() then Closed(n) else Open(WorstStart(s, from, n - 1) + s.Timeout())
  {
    if n > 0 {
      WorstCaseReplay(s, from, n - 1);
      var uses := WorstCase(s, from, n);
      assert uses[..n - 1] == WorstCase(s, from, n - 1);
      WorstStep(s, from, n);
    }
  }

  lemma WorstStep(s: Settings, from: Time, n: nat)
    requires 0 < n
    ensures var c := if n - 1 < s.Trip() then Closed(n - 1) else Open(WorstStart(s, from, n - 2) + s.Timeout());
            var start := WorstStart(s, from, n - 1);
            && Admits(s, c, start)
            && Step(s, c, Attempt(start, start, false)) ==
               if n < s.Trip() then Closed(n) else Open(start + s.Timeout())
  {
    assert n - s.Trip() - 1 == n - 1 - s.Trip();
  }

  lemma WorstCaseIsOrdered(s: Settings, from: Time, n: nat, length: nat)
    requires n > 0 ==> WorstStart(s, from, n - 1) <= from + length
    ensures Ordered(WorstCase(s, from, n)) && FailsThroughout(WorstCase(s, from, n), from, length)
  {
    forall i, j | 0 <= i <= j < n
      ensures from <= WorstStart(s, from, i) <= WorstStart(s, from, j)
    {
      SpanGrows(i + 1 - s.Trip(), j + 1 - s.Trip(), s.TrialGap());
    }
  }

  // The bound is exact: some load in every window reaches it.
  lemma OutageCallBoundIsReached(s: Settings, from: Time, length: nat)
    ensures exists uses ::
              && Ordered(uses) && FailsThroughout(uses, from, length)
              && RealCalls(s, INITIAL, uses) == Most(s, 0, length)
  {
    var n := Most(s, 0, length);
    FitsSpan(length, s.TrialGap());
    WorstCaseIsOrdered(s, from, n, length);
    WorstCaseReplay(s, from, n);
  }

  // ---- Over restarts ----

  // A breaker with all calls that its provider has had.
  datatype Gauge = Gauge(circuit: Circuit, calls: seq<Attempt>)

  // One step of the relay as the breaker sees it: at most one call, which the
  // breaker admitted, and perhaps a new process after it.
  ghost predicate Moves(s: Settings, g: Gauge, g': Gauge, restart: bool) {
    && Ordered(g'.calls)
    && if g'.calls == g.calls then g'.circuit == if restart then INITIAL else g.circuit
       else
         && |g'.calls| == |g.calls| + 1 && g'.calls[..|g.calls|] == g.calls
         && var call := g'.calls[|g.calls|];
            && Admits(s, g.circuit, call.start)
            && g'.circuit == if restart then INITIAL else Step(s, g.circuit, call)
  }

  ghost predicate MovesAlong(s: Settings, gauges: seq<Gauge>, restarts: seq<bool>) {
    && |gauges| == |restarts| + 1
    && forall k :: 0 <= k < |restarts| ==> Moves(s, gauges[k], gauges[k + 1], restarts[k])
  }

  // All calls after the first n failed, and none of them started before `from`.
  ghost predicate FailsAfter(calls: seq<Attempt>, n: nat, from: Time) {
    forall k :: n <= k < |calls| ==> !calls[k].ok && from <= calls[k].start
  }

  function Latest(calls: seq<Attempt>, n: nat, from: Time): Time {
    if |calls| <= n then from else calls[|calls| - 1].start
  }

  // Where an outage that began after n calls stands after some restarts.
  ghost predicate Stands(s: Settings, g: Gauge, n: nat, from: Time, restarts: nat) {
    n <= |g.calls|
    && OutageProgress(s, g.circuit, |g.calls| - n - Span(restarts, s.Trip()), from, Latest(g.calls, n, from))
  }

  // The same spending, with or without a new process afterwards.
  lemma OutageMayRestart(s: Settings, c: Circuit, spent: int, from: Time, last: Time, restarts: nat, restart: bool)
    requires OutageProgress(s, c, spent - Span(restarts, s.Trip()), from, last)
    ensures var after, now := if restart then INITIAL else c, if restart then restarts + 1 else restarts;
            OutageProgress(s, after, spent - Span(now, s.Trip()), from, last)
  {
    OutageRestart(s, c, spent - Span(restarts, s.Trip()), from, last);
  }

  lemma OutageGoesOn(s: Settings, g: Gauge, g': Gauge, n: nat, from: Time, restarts: nat, restart: bool)
    requires Moves(s, g, g', restart) && Stands(s, g, n, from, restarts) && FailsAfter(g'.calls, n, from)
    ensures Stands(s, g', n, from, if restart then restarts + 1 else restarts)
  {
    var spent, last := |g.calls| - n, Latest(g.calls, n, from);
    if g'.calls == g.calls {
      OutageMayRestart(s, g.circuit, spent, from, last, restarts, restart);
    } else {
      var call := g'.calls[|g.calls|];
      assert spent > 0 ==> g.calls[|g.calls| - 1] == g'.calls[|g.calls| - 1];
      assert last <= call.start;
      OutageCall(s, g.circuit, spent - Span(restarts, s.Trip()), from, last, call);
      OutageMayRestart(s, Step(s, g.circuit, call), spent + 1, from, call.start, restarts, restart);
    }
  }

  function Restarts(restarts: seq<bool>): nat {
    Count(restarts, (restart: bool) => restart)
  }

  lemma FailsBefore(s: Settings, g: Gauge, g': Gauge, restart: bool, n: nat, from: Time)
    requires Moves(s, g, g', restart) && FailsAfter(g'.calls, n, from)
    ensures FailsAfter(g.calls, n, from)
  {
    assert forall k :: 0 <= k < |g.calls| ==> g'.calls[..|g.calls|][k] == g'.calls[k];
  }

  lemma {:induction false} OutageAlong(
    s: Settings, gauges: seq<Gauge>, restarts: seq<bool>, i: nat, j: nat, from: Time)
    requires MovesAlong(s, gauges, restarts) && i <= j <= |restarts|
    requires gauges[i].circuit.Closed? && Settled(s, gauges[i].circuit)
    requires FailsAfter(gauges[j].calls, |gauges[i].calls|, from)
    ensures Stands(s, gauges[j], |gauges[i].calls|, from, Restarts(restarts[i..j]))
  {
    var n := |gauges[i].calls|;
    if i < j {
      assert Moves(s, gauges[j - 1], gauges[j], restarts[j - 1]);
      FailsBefore(s, gauges[j - 1], gauges[j], restarts[j - 1], n, from);
      OutageAlong(s, gauges, restarts, i, j - 1, from);
      OutageGoesOn(s, gauges[j - 1], gauges[j], n, from, Restarts(restarts[i..j - 1]), restarts[j - 1]);
      RestartsAppend(restarts, i, j);
    }
  }

  lemma RestartsAppend(restarts: seq<bool>, i: nat, j: nat)
    requires i < j <= |restarts|
    ensures Restarts(restarts[i..j]) == Restarts(restarts[i..j - 1]) + if restarts[j - 1] then 1 else 0
  {
    assert restarts[i..j] == restarts[i..j - 1] + [restarts[j - 1]];
    assert restarts[i..j][..j - 1 - i] == restarts[i..j - 1];
  }

  // Starting closed, while all calls fail, a provider gets at most Trip() of
  // them for every process, plus one per opening that fits in the window.
  lemma OutageCallBoundOverRestarts(
    s: Settings, gauges: seq<Gauge>, restarts: seq<bool>, i: nat, j: nat, from: Time, length: nat)
    requires MovesAlong(s, gauges, restarts) && i <= j <= |restarts|
    requires gauges[i].circuit.Closed? && Settled(s, gauges[i].circuit)
    requires FailsAfter(gauges[j].calls, |gauges[i].calls|, from)
    requires Ordered(gauges[j].calls) && EndedBy(gauges[j].calls, from + length)
    ensures |gauges[j].calls| - |gauges[i].calls| <= Most(s, Restarts(restarts[i..j]), length)
  {
    var g, n, count := gauges[j], |gauges[i].calls|, Restarts(restarts[i..j]);
    OutageAlong(s, gauges, restarts, i, j, from);
    OutageBound(s, g.circuit, |g.calls| - n - Span(count, s.Trip()), from, Latest(g.calls, n, from), length);
  }
}
