// What a breaker makes of the calls of its provider, told by the calls alone:
// which of them opened it, and where it stands after them.

module BreakerHistory {
  import opened Common
  import opened Resilience

  // The settings as numbers, with the engine's defaults for zeros.
  function Threshold(s: Settings): nat {
    if s.consecutiveFailures > 0 then s.consecutiveFailures else 1
  }

  function Trials(s: Settings): nat {
    if s.halfOpenMaxRequests > 0 then s.halfOpenMaxRequests else 1
  }

  function OpenFor(s: Settings): nat {
    if s.openTimeout > 0 then s.openTimeout else 60_000_000_000
  }

  // How many calls at the end of the first n failed in a row, not counting any
  // before `from`.
  function Row(calls: seq<Attempt>, from: nat, n: nat): nat
    requires from <= n <= |calls|
  {
    if n == from || calls[n - 1].ok then 0 else 1 + Row(calls, from, n - 1)
  }

  // Call k opens the breaker: it failed, and it was one of the trials after the
  // latest opening, or the last of Threshold() failures in a row, none of them a
  // trial.
  predicate Opens(s: Settings, calls: seq<Attempt>, k: nat)
    requires k < |calls|
    decreases k, 1
  {
    && !calls[k].ok
    && match Opening(s, calls, k)
       case None => Row(calls, 0, k + 1) >= Threshold(s)
       case Some(j) => k <= j + Trials(s) || Row(calls, j + Trials(s) + 1, k + 1) >= Threshold(s)
  }

  // The latest opening among the first n calls.
  function Opening(s: Settings, calls: seq<Attempt>, n: nat): (latest: Option<nat>)
    requires n <= |calls|
    ensures latest.Some? ==> latest.value < n
    decreases n, 0
  {
    if n == 0 then None
    else if Opens(s, calls, n - 1) then Some(n - 1)
    else Opening(s, calls, n - 1)
  }

  // Where the breaker stands after the first n calls: open after an opening,
  // half-open after fewer than Trials() good trials, and closed otherwise.
  function Standing(s: Settings, calls: seq<Attempt>, n: nat): Circuit
    requires n <= |calls|
  {
    match Opening(s, calls, n)
    case None => Closed(Row(calls, 0, n))
    case Some(j) =>
      if n == j + 1 then Open(calls[j].end + OpenFor(s))
      else if n <= j + Trials(s) then HalfOpen(n - 1 - j, n - 1 - j)
      else Closed(Row(calls, j + Trials(s) + 1, n))
  }

  // The engine agrees, when it admitted all of the calls.
  lemma {:induction false} ReplayIsStanding(s: Settings, calls: seq<Attempt>, n: nat)
    requires n <= |calls| && RealCalls(s, INITIAL, calls[..n]) == n
    ensures Replay(s, INITIAL, calls[..n]) == Standing(s, calls, n)
  {
    if n > 0 {
      assert calls[..n][..n - 1] == calls[..n - 1];
      RealCallsBounded(s, calls[..n - 1]);
      ReplayIsStanding(s, calls, n - 1);
      NextStanding(s, calls, n);
    }
  }

  lemma {:induction false} RealCallsBounded(s: Settings, calls: seq<Attempt>)
    ensures RealCalls(s, INITIAL, calls) <= |calls|
  {
    if calls != [] {
      RealCallsBounded(s, calls[..|calls| - 1]);
    }
  }

  lemma NextStanding(s: Settings, calls: seq<Attempt>, n: nat)
    requires 0 < n <= |calls| && Admits(s, Standing(s, calls, n - 1), calls[n - 1].start)
    ensures Step(s, Standing(s, calls, n - 1), calls[n - 1]) == Standing(s, calls, n)
  {
    var latest := Opening(s, calls, n - 1);
    if Opens(s, calls, n - 1) {
      assert Opening(s, calls, n) == Some(n - 1);
      assert !calls[n - 1].ok;
    } else {
      assert Opening(s, calls, n) == latest;
    }
    match latest
    case None => assert Row(calls, 0, n) == if calls[n - 1].ok then 0 else 1 + Row(calls, 0, n - 1);
    case Some(j) =>
      if n > j + Trials(s) + 1 {
        var from := j + Trials(s) + 1;
        assert Row(calls, from, n) == if calls[n - 1].ok then 0 else 1 + Row(calls, from, n - 1);
      } else if n == j + Trials(s) + 1 {
        assert Row(calls, n, n) == 0;
      }
  }

  // ---- What that says of openings ----

  predicate AllFailed(calls: seq<Attempt>, first: int, last: int) {
    0 <= first && last < |calls| && forall i :: first <= i <= last ==> !calls[i].ok
  }

  lemma {:induction false} RowMeans(calls: seq<Attempt>, from: nat, n: nat, length: nat)
    requires from <= n <= |calls|
    ensures Row(calls, from, n) >= length <==>
            from + length <= n && AllFailed(calls, n - length, n - 1)
  {
    if length > 0 && n > from && !calls[n - 1].ok {
      RowMeans(calls, from, n - 1, length - 1);
    }
  }

  lemma {:induction false} LatestOpening(s: Settings, calls: seq<Attempt>, n: nat)
    requires n <= |calls|
    ensures Opening(s, calls, n).Some? ==> Opens(s, calls, Opening(s, calls, n).value)
    ensures forall k :: 0 <= k < n && Opens(s, calls, k) ==>
      Opening(s, calls, n).Some? && k <= Opening(s, calls, n).value
  {
    if n > 0 {
      LatestOpening(s, calls, n - 1);
    }
  }

  // Call k is one of the trials after the opening at j.
  ghost predicate IsTrial(s: Settings, calls: seq<Attempt>, j: int, k: int) {
    && 0 <= j < k < |calls| && Opens(s, calls, j) && k <= j + Trials(s)
    && forall i :: j < i < k ==> calls[i].ok
  }

  // Trials since the latest opening were good, or there would be a later one.
  lemma TrialsWereGood(s: Settings, calls: seq<Attempt>, k: nat, j: nat)
    requires k <= |calls| && Opening(s, calls, k) == Some(j)
    ensures Opens(s, calls, j) && forall i :: j < i < k && i <= j + Trials(s) ==> calls[i].ok
  {
    LatestOpening(s, calls, k);
    forall i | j < i < k && i <= j + Trials(s)
      ensures calls[i].ok
    {
      LatestOpening(s, calls, i);
      assert !Opens(s, calls, i);
    }
  }

  lemma OpensByTrial(s: Settings, calls: seq<Attempt>, k: nat, j: nat)
    requires k < |calls| && IsTrial(s, calls, j, k) && !calls[k].ok
    ensures Opens(s, calls, k)
  {
    LatestOpening(s, calls, k);
  }

  // None of the calls is a trial.
  ghost predicate NoTrials(s: Settings, calls: seq<Attempt>, first: int, last: int) {
    forall j, i :: first <= i <= last ==> !IsTrial(s, calls, j, i)
  }

  // Where rows start to count again.
  function RowStart(s: Settings, calls: seq<Attempt>, k: nat): nat
    requires k <= |calls|
  {
    var latest := Opening(s, calls, k);
    if latest.Some? then latest.value + Trials(s) + 1 else 0
  }

  lemma RowAvoidsTrials(s: Settings, calls: seq<Attempt>, k: nat, first: int)
    requires k < |calls| && first <= k && AllFailed(calls, first, k)
    ensures NoTrials(s, calls, first, k) <==> RowStart(s, calls, k) <= first
  {
    LatestOpening(s, calls, k);
    var latest := Opening(s, calls, k);
    if latest.Some? && first <= latest.value + Trials(s) {
      var j := latest.value;
      TrialsWereGood(s, calls, k, j);
      var i := if first <= j then j + 1 else first;
      assert IsTrial(s, calls, j, i);
    }
  }

  lemma OpensByRow(s: Settings, calls: seq<Attempt>, k: nat)
    requires k < |calls| && forall j :: !IsTrial(s, calls, j, k)
    ensures RowStart(s, calls, k) <= k || calls[k].ok
    ensures Opens(s, calls, k) <==> !calls[k].ok && Row(calls, RowStart(s, calls, k), k + 1) >= Threshold(s)
  {
    var latest := Opening(s, calls, k);
    if latest.Some? {
      TrialsWereGood(s, calls, k, latest.value);
      assert !IsTrial(s, calls, latest.value, k);
    }
  }

  // Call k ends Threshold() failures in a row, none of which is a trial.
  ghost predicate EndsRow(s: Settings, calls: seq<Attempt>, k: int) {
    AllFailed(calls, k + 1 - Threshold(s), k) && NoTrials(s, calls, k + 1 - Threshold(s), k)
  }

  lemma RowOpens(s: Settings, calls: seq<Attempt>, k: nat)
    requires k < |calls| && (forall j :: !IsTrial(s, calls, j, k))
    ensures EndsRow(s, calls, k) <==> Opens(s, calls, k)
  {
    OpensByRow(s, calls, k);
    if !calls[k].ok {
      RowMeans(calls, RowStart(s, calls, k), k + 1, Threshold(s));
      if AllFailed(calls, k + 1 - Threshold(s), k) {
        RowAvoidsTrials(s, calls, k, k + 1 - Threshold(s));
      }
    }
  }

  // Every opening is earned: call k opens the breaker if and only if it is a
  // failed trial, so that fewer than Trials() calls, all of them good, separate
  // it from the opening before, or it ends a row of failures.
  lemma OpeningsAreEarned(s: Settings, calls: seq<Attempt>, k: nat)
    requires k < |calls|
    ensures Opens(s, calls, k) <==>
            (!calls[k].ok && exists j :: IsTrial(s, calls, j, k)) || EndsRow(s, calls, k)
  {
    if j :| IsTrial(s, calls, j, k) {
      if !calls[k].ok {
        OpensByTrial(s, calls, k, j);
      }
    } else {
      RowOpens(s, calls, k);
    }
  }

  // After an opening, Trials() good calls close the breaker, and failures count
  // from zero.
  lemma GoodTrialsClose(s: Settings, calls: seq<Attempt>, j: nat)
    requires j + Trials(s) < |calls| && Opens(s, calls, j)
    requires forall i :: j < i <= j + Trials(s) ==> calls[i].ok
    ensures Standing(s, calls, j + Trials(s) + 1) == Closed(0)
  {
    var n := j + Trials(s) + 1;
    LatestOpening(s, calls, n);
  }

  // With calls that overlap a half-open breaker admits no more than Trials() of
  // them, and counts each.
  lemma TrialsAreLimited(s: Settings, requests: nat, successes: nat, now: Time)
    ensures Admits(s, HalfOpen(requests, successes), now) <==> requests < Trials(s)
    ensures Begin(HalfOpen(requests, successes), now) == HalfOpen(requests + 1, successes)
  {
  }

  // A breaker that its calls explain stands as they say, and turns a call away
  // only when the latest of them opened it and has done so for no longer than
  // OpenFor().
  lemma ExplainedByWords(s: Settings, calls: seq<Attempt>, c: Circuit, now: Time)
    requires Explains(s, calls, c)
    ensures c == Standing(s, calls, |calls|)
    ensures Admits(s, c, now) <==>
            !(calls != [] && Opens(s, calls, |calls| - 1) && now <= calls[|calls| - 1].end + OpenFor(s))
  {
    assert calls[..|calls|] == calls;
    ReplayIsStanding(s, calls, |calls|);
    LatestOpening(s, calls, |calls|);
    StepKeepsSettled(s, c, Attempt(now, now, true));
  }
}
