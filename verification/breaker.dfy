// The per-provider circuit breaker: the trip policy of internal/resilience
// over the closed / open / half-open machine it configures.

module Resilience {
  import opened Common

  datatype Settings = Settings(consecutiveFailures: nat, openTimeout: int, halfOpenMaxRequests: nat) {
    // A closed breaker trips no earlier than at its first failure, even when
    // the threshold is configured as zero.
    function Trip(): nat {
      if consecutiveFailures == 0 then 1 else consecutiveFailures
    }

    // The engine replaces a non-positive timeout by sixty seconds.
    function Timeout(): nat {
      if openTimeout <= 0 then 60 * SECOND else openTimeout
    }

    // The engine replaces a zero trial quota by one.
    function Quota(): nat {
      if halfOpenMaxRequests == 0 then 1 else halfOpenMaxRequests
    }

    // Each trial in an outage comes strictly after the previous opening
    // expired, so two trials are at least this many nanoseconds apart.
    function TrialGap(): nat {
      Timeout() + 1
    }
  }

  datatype Circuit =
    | Closed(failures: nat)
    | Open(expiry: Time)
    | HalfOpen(requests: nat, successes: nat)

  const INITIAL: Circuit := Closed(0)

  // One use of the breaker: when the call would start, when it would end, and
  // whether it would succeed. The last two matter only when it is admitted.
  datatype Attempt = Attempt(start: Time, end: Time, ok: bool)

  function Observe(c: Circuit, now: Time): Circuit {
    if c.Open? && c.expiry < now then HalfOpen(0, 0) else c
  }

  predicate Admits(s: Settings, c: Circuit, now: Time) {
    match Observe(c, now)
    case Closed(_) => true
    case Open(_) => false
    case HalfOpen(requests, _) => requests < s.Quota()
  }

  function Begin(c: Circuit, now: Time): Circuit {
    match Observe(c, now)
    case HalfOpen(requests, successes) => HalfOpen(requests + 1, successes)
    case other => other
  }

  function Finish(s: Settings, c: Circuit, now: Time, ok: bool): Circuit {
    match c
    case Closed(failures) =>
      if ok then Closed(0)
      else if failures + 1 >= s.consecutiveFailures then Open(now + s.Timeout())
      else Closed(failures + 1)
    case Open(_) => c
    case HalfOpen(requests, successes) =>
      if !ok then Open(now + s.Timeout())
      else if successes + 1 >= s.Quota() then Closed(0)
      else HalfOpen(requests, successes + 1)
  }

  function Step(s: Settings, c: Circuit, a: Attempt): Circuit {
    if Admits(s, c, a.start) then Finish(s, Begin(c, a.start), a.end, a.ok) else c
  }

  function Replay(s: Settings, c: Circuit, uses: seq<Attempt>): Circuit {
    if uses == [] then c
    else Step(s, Replay(s, c, uses[..|uses| - 1]), uses[|uses| - 1])
  }

  // How many of the uses really reached the provider.
  function RealCalls(s: Settings, c: Circuit, uses: seq<Attempt>): nat {
    if uses == [] then 0
    else
      var before := uses[..|uses| - 1];
      RealCalls(s, c, before) +
      if Admits(s, Replay(s, c, before), uses[|uses| - 1].start) then 1 else 0
  }

  // Uses by one consumer, which never starts a call before the last one ended.
  ghost predicate Ordered(uses: seq<Attempt>) {
    && (forall i :: 0 <= i < |uses| ==> uses[i].start <= uses[i].end)
    && (forall i, j :: 0 <= i < j < |uses| ==> uses[i].end <= uses[j].start)
  }

  ghost predicate EndedBy(uses: seq<Attempt>, now: Time) {
    forall i :: 0 <= i < |uses| ==> uses[i].end <= now
  }

  // What holds between two calls of a sequential consumer.
  predicate Settled(s: Settings, c: Circuit) {
    match c
    case Closed(failures) => failures < s.Trip()
    case Open(_) => true
    case HalfOpen(requests, successes) => requests == successes < s.Quota()
  }

  // Non-overlapping calls can only ever be turned away by an unexpired
  // opening: the half-open trial quota never rejects one.
  lemma StepKeepsSettled(s: Settings, c: Circuit, a: Attempt)
    requires Settled(s, c)
    ensures Settled(s, Step(s, c, a))
    ensures Admits(s, c, a.start) <==> !(c.Open? && a.start <= c.expiry)
    ensures !Admits(s, c, a.start) ==> Step(s, c, a) == c
    ensures Step(s, c, a).Open? && Step(s, c, a) != c ==> !a.ok && Step(s, c, a).expiry == a.end + s.Timeout()
  {
  }

  lemma AppendUse(s: Settings, c: Circuit, uses: seq<Attempt>, a: Attempt)
    ensures Replay(s, c, uses + [a]) == Step(s, Replay(s, c, uses), a)
    ensures RealCalls(s, c, uses + [a]) ==
            RealCalls(s, c, uses) + if Admits(s, Replay(s, c, uses), a.start) then 1 else 0
  {
    assert (uses + [a])[..|uses|] == uses;
  }

  // From r on the provider works: no call that ends at r or later fails.
  ghost predicate WorksFrom(calls: seq<Attempt>, r: Time) {
    forall k :: 0 <= k < |calls| && r <= calls[k].end ==> calls[k].ok
  }

  // Then every opening has expired an open timeout after r.
  lemma {:induction false} OpeningsExpire(s: Settings, calls: seq<Attempt>, r: Time)
    requires WorksFrom(calls, r)
    ensures var c := Replay(s, INITIAL, calls); c.Open? ==> c.expiry < r + s.Timeout()
  {
    if calls != [] {
      var front := calls[..|calls| - 1];
      assert forall k :: 0 <= k < |front| ==> front[k] == calls[k];
      OpeningsExpire(s, front, r);
    }
  }

  // A breaker that is what the calls of its provider made of it, each of which
  // it admitted.
  ghost predicate Explains(s: Settings, calls: seq<Attempt>, c: Circuit) {
    && c == Replay(s, INITIAL, calls)
    && RealCalls(s, INITIAL, calls) == |calls|
    && Settled(s, c)
  }

  lemma CallKeepsExplanation(s: Settings, calls: seq<Attempt>, c: Circuit, a: Attempt)
    requires Explains(s, calls, c) && Admits(s, c, a.start)
    ensures Explains(s, calls + [a], Step(s, c, a))
  {
    AppendUse(s, INITIAL, calls, a);
    StepKeepsSettled(s, c, a);
  }

  lemma AppendOrdered(uses: seq<Attempt>, a: Attempt, now: Time)
    requires Ordered(uses) && EndedBy(uses, now) && now <= a.start <= a.end
    ensures Ordered(uses + [a]) && EndedBy(uses + [a], a.end)
  {
  }

  // The breaker of a process that started after the first `epoch` calls: the
  // later calls explain it, and all calls follow one another.
  ghost predicate Tracks(s: Settings, calls: seq<Attempt>, epoch: nat, c: Circuit, clock: Time) {
    && epoch <= |calls| && Explains(s, calls[epoch..], c)
    && Ordered(calls) && EndedBy(calls, clock)
  }

  lemma CallKeepsTrack(s: Settings, calls: seq<Attempt>, epoch: nat, c: Circuit, clock: Time, a: Attempt)
    requires Tracks(s, calls, epoch, c, clock) && Admits(s, c, a.start) && clock <= a.start <= a.end
    ensures Tracks(s, calls + [a], epoch, Step(s, c, a), a.end)
  {
    assert (calls + [a])[epoch..] == calls[epoch..] + [a];
    CallKeepsExplanation(s, calls[epoch..], c, a);
    AppendOrdered(calls, a, clock);
  }

  lemma TimeKeepsTrack(s: Settings, calls: seq<Attempt>, epoch: nat, c: Circuit, clock: Time, later: Time)
    requires Tracks(s, calls, epoch, c, clock) && clock <= later
    ensures Tracks(s, calls, epoch, c, later)
  {
  }

  lemma RestartKeepsTrack(s: Settings, calls: seq<Attempt>, epoch: nat, c: Circuit, clock: Time)
    requires Tracks(s, calls, epoch, c, clock)
    ensures Tracks(s, calls, |calls|, INITIAL, clock)
  {
    assert calls[|calls|..] == [];
  }

  // ---- The breaker object ----

  class CircuitBreaker {
    const settings: Settings
    var circuit: Circuit

    constructor (settings: Settings)
      ensures this.settings == settings && circuit == INITIAL
    {
      this.settings := settings;
      circuit := INITIAL;
    }

    method BeforeRequest(now: Time) returns (admitted: bool)
      modifies this
      ensures admitted == Admits(settings, old(circuit), now)
      ensures circuit == if admitted then Begin(old(circuit), now) else Observe(old(circuit), now)
    {
      if circuit.Open? && circuit.expiry < now {
        circuit := HalfOpen(0, 0);
      }
      match circuit {
        case Open(_) =>
          admitted := false;
        case HalfOpen(requests, successes) =>
          admitted := requests < settings.Quota();
          if admitted {
            circuit := HalfOpen(requests + 1, successes);
          }
        case Closed(_) =>
          admitted := true;
      }
    }

    method AfterRequest(now: Time, ok: bool)
      modifies this
      ensures circuit == Finish(settings, old(circuit), now, ok)
    {
      match circuit {
        case Closed(failures) =>
          if ok {
            circuit := Closed(0);
          } else {
            circuit := Closed(failures + 1);
            if circuit.failures >= settings.consecutiveFailures {
              circuit := Open(now + settings.Timeout());
            }
          }
        case Open(_) =>
        case HalfOpen(requests, successes) =>
          if !ok {
            circuit := Open(now + settings.Timeout());
          } else {
            circuit := HalfOpen(requests, successes + 1);
            if circuit.successes >= settings.Quota() {
              circuit := Closed(0);
            }
          }
      }
    }

    // A rejected use leaves the breaker as it was; an admitted one is the
    // transition that Step describes.
    method Execute(use: Attempt) returns (admitted: bool)
      modifies this
      ensures admitted == Admits(settings, old(circuit), use.start)
      ensures circuit == Step(settings, old(circuit), use)
    {
      admitted := BeforeRequest(use.start);
      if admitted {
        AfterRequest(use.end, use.ok);
      }
    }
  }
}
