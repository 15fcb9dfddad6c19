// The relay's two breakers under one name: which calls each provider has had,
// and what a step does to its breaker.

module Providers {
  import opened Common
  import opened Logs
  import opened Routing
  import opened Relay
  import opened Resilience
  import BreakerHistory
  import EmailService
  import EmailAudit
  import PushService
  import PushAudit

  // The calls made to the provider of a channel, over all processes.
  function CallsIn(s: State, c: Channel): seq<Attempt> {
    if c.EmailChannel? then EmailAudit.CallsOf(s.email.log) else PushAudit.CallsOf(s.push.log)
  }

  function CircuitOf(s: State, c: Channel): Circuit {
    if c.EmailChannel? then s.email.circuit else s.push.circuit
  }

  function SettingsOf(cfg: Config, c: Channel): Settings {
    if c.EmailChannel? then cfg.email.breaker else cfg.push.breaker
  }

  function ClockOf(s: State, c: Channel): Time {
    if c.EmailChannel? then s.email.clock else s.push.clock
  }

  function EpochOf(s: State, c: Channel): nat {
    if c.EmailChannel? then s.email.epoch else s.push.epoch
  }

  // The provider call in one use of a handler, if it makes one.
  function EmailCall(cfg: Config, s: EmailAudit.Side, body: Body, env: EmailService.Env): seq<Attempt> {
    match EmailToSend(cfg, body)
    case None => []
    case Some(ev) => EmailAudit.CallOf(EmailService.SendEmail(cfg.email, s.tables, s.circuit, ev, env).trace)
  }

  function PushCall(cfg: Config, s: PushAudit.Side, body: Body, env: PushService.Env): seq<Attempt> {
    match PushToSend(cfg, body)
    case None => []
    case Some(ev) => PushAudit.CallOf(
      PushService.SendPush(cfg.push, s.table, s.circuit, ev.notification, ev.requestId, env).trace)
  }

  // The call that an enabled step makes to the provider of a channel, if any.
  function CallIn(cfg: Config, s: State, a: Action, c: Channel): seq<Attempt> {
    var q := s.broker.Of(c).unacked;
    if q == [] then []
    else
      match a
      case HandleEmail(env, _) => if c.EmailChannel? then EmailCall(cfg, s.email, q[0].body, env) else []
      case HandlePush(env, _) => if c.PushChannel? then PushCall(cfg, s.push, q[0].body, env) else []
      case Crash(emailCut, pushCut) =>
        if c.EmailChannel? && !emailCut.Idle? then EmailCall(cfg, s.email, q[0].body, emailCut.env)
        else if c.PushChannel? && !pushCut.Idle? then PushCall(cfg, s.push, q[0].body, pushCut.env)
        else []
      case _ => []
  }

  // What one use of a handler does to the breaker: nothing, or what its one
  // call does, which started after the consumer's previous attempt.
  ghost predicate Uses(s: Settings, c: Circuit, call: seq<Attempt>, c': Circuit, clock: Time, now: Time) {
    if call == [] then c' == c
    else
      && |call| == 1 && Admits(s, c, call[0].start) && c' == Step(s, c, call[0])
      && clock <= call[0].start <= call[0].end <= now
  }

  lemma EmailUse(cfg: Config, s: EmailAudit.Side, body: Body, env: EmailService.Env, now: Time)
    requires EmailAudit.Inv(cfg.email, s) && s.clock <= env.start <= env.end <= now
    ensures var s' := EmailAfter(cfg, s, body, env);
            && EmailAudit.CallsOf(s'.log) == EmailAudit.CallsOf(s.log) + EmailCall(cfg, s, body, env)
            && Uses(cfg.email.breaker, s.circuit, EmailCall(cfg, s, body, env), s'.circuit, s.clock, now)
  {
    if EmailToSend(cfg, body).Some? {
      var ev := EmailToSend(cfg, body).value;
      CollectAppend(
        s.log, EmailService.SendEmail(cfg.email, s.tables, s.circuit, ev, env).trace, EmailAudit.CallOf);
      EmailAudit.SendMovesBreakerByItsCallOnly(cfg.email, s.tables, s.circuit, ev, env);
    }
  }

  lemma PushUse(cfg: Config, s: PushAudit.Side, body: Body, env: PushService.Env, now: Time)
    requires PushAudit.Inv(cfg.push, s) && PushAudit.InTime(s, env) && env.end <= now
    ensures var s' := PushAfter(cfg, s, body, env);
            && PushAudit.CallsOf(s'.log) == PushAudit.CallsOf(s.log) + PushCall(cfg, s, body, env)
            && Uses(cfg.push.breaker, s.circuit, PushCall(cfg, s, body, env), s'.circuit, s.clock, now)
  {
    if PushToSend(cfg, body).Some? {
      var ev := PushToSend(cfg, body).value;
      CollectAppend(
        s.log, PushService.SendPush(cfg.push, s.table, s.circuit, ev.notification, ev.requestId, env).trace,
        PushAudit.CallOf);
      PushAudit.SendMovesBreakerByItsCallOnly(cfg.push, s.table, s.circuit, ev.notification, ev.requestId, env);
    }
  }

  // A breaker moves by the calls to its own provider and by nothing else, until
  // a new process starts with a closed one.
  lemma StepMovesBreaker(cfg: Config, s: State, a: Action, c: Channel) returns (after: Circuit)
    requires Inv(cfg, s) && Enabled(cfg, s, a)
    ensures var s', call := Next(cfg, s, a), CallIn(cfg, s, a, c);
            && CallsIn(s', c) == CallsIn(s, c) + call
            && Uses(SettingsOf(cfg, c), CircuitOf(s, c), call, after, ClockOf(s, c), s'.now)
            && CircuitOf(s', c) == if a.Crash? then INITIAL else after
  {
    after := CircuitOf(Next(cfg, s, a), c);
    match a {
      case HandleEmail(env, _) =>
        EmailUse(cfg, s.email, s.broker.email.unacked[0].body, env, s.now);
      case HandlePush(env, _) =>
        PushUse(cfg, s.push, s.broker.push.unacked[0].body, env, s.now);
      case Crash(emailCut, pushCut) =>
        after := CrashMovesBreaker(cfg, s, emailCut, pushCut, c);
      case _ =>
    }
  }

  lemma CrashMovesBreaker(
    cfg: Config, s: State, emailCut: Cut<EmailService.Env>, pushCut: Cut<PushService.Env>, c: Channel)
    returns (after: Circuit)
    requires Inv(cfg, s) && Enabled(cfg, s, Crash(emailCut, pushCut))
    ensures var a := Crash(emailCut, pushCut);
            && CallsIn(Next(cfg, s, a), c) == CallsIn(s, c) + CallIn(cfg, s, a, c)
            && CircuitOf(Next(cfg, s, a), c) == INITIAL
            && Uses(SettingsOf(cfg, c), CircuitOf(s, c), CallIn(cfg, s, a, c), after, ClockOf(s, c), s.now)
  {
    after := CircuitOf(s, c);
    if c.EmailChannel? && !emailCut.Idle? {
      var body := s.broker.email.unacked[0].body;
      EmailUse(cfg, s.email, body, emailCut.env, s.now);
      after := EmailAfter(cfg, s.email, body, emailCut.env).circuit;
    } else if c.PushChannel? && !pushCut.Idle? {
      var body := s.broker.push.unacked[0].body;
      PushUse(cfg, s.push, body, pushCut.env, s.now);
      after := PushAfter(cfg, s.push, body, pushCut.env).circuit;
    }
  }

  // In every state of a run the breaker of a provider is what the calls made to
  // it by the present process made of it, each of which it admitted; no call
  // started before the one before it had ended.
  lemma BreakerIsItsCalls(cfg: Config, states: seq<State>, actions: seq<Action>, i: nat, c: Channel)
    requires Behavior(cfg, states, actions) && i <= |actions|
    ensures var s, calls := states[i], CallsIn(states[i], c);
            && EpochOf(s, c) <= |calls| && Ordered(calls) && EndedBy(calls, s.now)
            && Settled(SettingsOf(cfg, c), CircuitOf(s, c))
            && CircuitOf(s, c) == Replay(SettingsOf(cfg, c), INITIAL, calls[EpochOf(s, c)..])
            && RealCalls(SettingsOf(cfg, c), INITIAL, calls[EpochOf(s, c)..]) == |calls| - EpochOf(s, c)
  {
    InvAlong(cfg, states, actions, i);
  }

  // The calls that the present process has made to the provider.
  function Recent(s: State, c: Channel): seq<Attempt> {
    if EpochOf(s, c) <= |CallsIn(s, c)| then CallsIn(s, c)[EpochOf(s, c)..] else []
  }

  // In words of those calls: in every state of a run the breaker is open,
  // half-open or closed as BreakerHistory has it, and refuses a call exactly
  // while the latest opening lasts.
  lemma BreakerStandsByItsCalls(
    cfg: Config, states: seq<State>, actions: seq<Action>, i: nat, c: Channel, now: Time)
    requires Behavior(cfg, states, actions) && i <= |actions|
    ensures var settings, calls := SettingsOf(cfg, c), Recent(states[i], c);
            && CircuitOf(states[i], c) == BreakerHistory.Standing(settings, calls, |calls|)
            && (Admits(settings, CircuitOf(states[i], c), now) <==>
                  !(&& calls != [] && BreakerHistory.Opens(settings, calls, |calls| - 1)
                    && now <= calls[|calls| - 1].end + BreakerHistory.OpenFor(settings)))
  {
    InvAlong(cfg, states, actions, i);
    BreakerHistory.ExplainedByWords(SettingsOf(cfg, c), Recent(states[i], c), CircuitOf(states[i], c), now);
  }

  lemma NextHasCalls(cfg: Config, states: seq<State>, actions: seq<Action>, i: nat, c: Channel)
    requires Behavior(cfg, states, actions) && i < |actions|
    ensures CallsIn(states[i], c) <= CallsIn(states[i + 1], c)
  {
    InvAlong(cfg, states, actions, i);
    var after := StepMovesBreaker(cfg, states[i], actions[i], c);
  }

  // No call is ever taken off the record.
  lemma CallsOnlyGrow(cfg: Config, states: seq<State>, actions: seq<Action>, i: nat, j: nat, c: Channel)
    requires Behavior(cfg, states, actions) && i <= j <= |actions|
    ensures CallsIn(states[i], c) <= CallsIn(states[j], c)
  {
    forall k | i <= k < j
      ensures CallsIn(states[k], c) <= CallsIn(states[k + 1], c)
    {
      NextHasCalls(cfg, states, actions, k, c);
    }
    PrefixAlong(seq(|states|, k requires 0 <= k < |states| => CallsIn(states[k], c)), i, j);
  }
}
