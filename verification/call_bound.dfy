// An outage costs each provider a bounded number of calls in every run, under
// any load and however often the process is restarted.

module CallBound {
  import opened Common
  import opened Logs
  import opened Routing
  import opened Relay
  import opened Resilience
  import opened Providers
  import OutageCost

  function GaugeOf(s: State, c: Channel): OutageCost.Gauge {
    OutageCost.Gauge(CircuitOf(s, c), CallsIn(s, c))
  }

  function Gauges(states: seq<State>, c: Channel): seq<OutageCost.Gauge> {
    seq(|states|, k requires 0 <= k < |states| => GaugeOf(states[k], c))
  }

  function Crashed(actions: seq<Action>): seq<bool> {
    seq(|actions|, k requires 0 <= k < |actions| => actions[k].Crash?)
  }

  // How many of the actions from i on and before j are crashes.
  function Crashes(actions: seq<Action>, i: nat, j: nat): nat
    requires i <= j <= |actions|
  {
    OutageCost.Restarts(Crashed(actions)[i..j])
  }

  lemma StepMoves(cfg: Config, s: State, a: Action, c: Channel)
    requires Inv(cfg, s) && Enabled(cfg, s, a)
    ensures OutageCost.Moves(SettingsOf(cfg, c), GaugeOf(s, c), GaugeOf(Next(cfg, s, a), c), a.Crash?)
  {
    var after := StepMovesBreaker(cfg, s, a, c);
    UseMoves(SettingsOf(cfg, c), GaugeOf(s, c), CallIn(cfg, s, a, c), after, ClockOf(s, c), Next(cfg, s, a).now,
             a.Crash?);
  }

  lemma UseMoves(s: Settings, g: OutageCost.Gauge, call: seq<Attempt>, after: Circuit, clock: Time, now: Time,
                 crash: bool)
    requires Ordered(g.calls) && EndedBy(g.calls, clock) && Uses(s, g.circuit, call, after, clock, now)
    ensures OutageCost.Moves(s, g, OutageCost.Gauge(if crash then INITIAL else after, g.calls + call), crash)
  {
    if call != [] {
      AppendOrdered(g.calls, call[0], clock);
      assert call == [call[0]];
    }
  }

  lemma RunMoves(cfg: Config, states: seq<State>, actions: seq<Action>, c: Channel)
    requires Behavior(cfg, states, actions)
    ensures OutageCost.MovesAlong(SettingsOf(cfg, c), Gauges(states, c), Crashed(actions))
  {
    forall k | 0 <= k < |actions|
      ensures OutageCost.Moves(
                SettingsOf(cfg, c), GaugeOf(states[k], c), GaugeOf(states[k + 1], c), actions[k].Crash?)
    {
      InvAlong(cfg, states, actions, k);
      StepMoves(cfg, states[k], actions[k], c);
    }
  }

  lemma BoundOfMoves(
    settings: Settings, states: seq<State>, actions: seq<Action>, i: nat, j: nat, c: Channel, from: Time)
    requires OutageCost.MovesAlong(settings, Gauges(states, c), Crashed(actions)) && i <= j <= |actions|
    requires CircuitOf(states[i], c).Closed? && Settled(settings, CircuitOf(states[i], c))
    requires OutageCost.FailsAfter(CallsIn(states[j], c), |CallsIn(states[i], c)|, from)
    requires Ordered(CallsIn(states[j], c)) && EndedBy(CallsIn(states[j], c), states[j].now) && from <= states[j].now
    ensures |CallsIn(states[j], c)| - |CallsIn(states[i], c)|
            <= OutageCost.Most(settings, Crashes(actions, i, j), states[j].now - from)
  {
    OutageCost.OutageCallBoundOverRestarts(
      settings, Gauges(states, c), Crashed(actions), i, j, from, states[j].now - from);
  }

  // Between two points of a run, the first with a closed breaker: if every call
  // to the provider in between failed, none before `from`, there were at most
  // Trip() of them for every process, plus one per opening that fits between
  // `from` and now, whatever messages were published.
  lemma CallBound(cfg: Config, states: seq<State>, actions: seq<Action>, i: nat, j: nat, c: Channel, from: Time)
    requires Behavior(cfg, states, actions) && i <= j <= |actions| && from <= states[j].now
    requires CircuitOf(states[i], c).Closed?
    requires OutageCost.FailsAfter(CallsIn(states[j], c), |CallsIn(states[i], c)|, from)
    ensures |CallsIn(states[j], c)| - |CallsIn(states[i], c)|
            <= OutageCost.Most(SettingsOf(cfg, c), Crashes(actions, i, j), states[j].now - from)
  {
    RunMoves(cfg, states, actions, c);
    BreakerIsItsCalls(cfg, states, actions, i, c);
    BreakerIsItsCalls(cfg, states, actions, j, c);
    BoundOfMoves(SettingsOf(cfg, c), states, actions, i, j, c, from);
  }
}
