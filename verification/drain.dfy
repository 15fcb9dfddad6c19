// With no new messages, no crashes and working parks, the queues empty: a
// measure over all live messages drops on every step of broker and consumers.

module Drain {
  import opened Common
  import opened Routing
  import opened Broker
  import opened Relay
  import Deaths
  import EmailService
  import PushService
  import BrokerInvariant

  // Retries a message has left.
  function RetriesLeft(p: Policy, m: Msg): nat {
    if m.history.rejections < p.Budget() then p.Budget() - m.history.rejections else 0
  }

  // Remaining retries first, then the stage in the loop: waiting for a retry,
  // ready, delivered.
  function Total(p: Policy, ms: seq<Msg>, stage: nat): nat {
    if ms == [] then 0 else 3 * RetriesLeft(p, ms[0]) + stage + Total(p, ms[1..], stage)
  }

  function TotalWaiting(p: Policy, ws: seq<Waiting>): nat {
    if ws == [] then 0 else 3 * RetriesLeft(p, ws[0].msg) + 3 + TotalWaiting(p, ws[1..])
  }

  function QueueTotal(p: Policy, q: Queue): nat {
    Total(p, q.ready, 2) + Total(p, q.unacked, 1)
  }

  function Measure(p: Policy, b: Queues): nat {
    QueueTotal(p, b.email) + QueueTotal(p, b.push) + TotalWaiting(p, b.retry)
  }

  lemma {:induction false} TotalAppend(p: Policy, ms: seq<Msg>, m: Msg, stage: nat)
    ensures Total(p, ms + [m], stage) == Total(p, ms, stage) + 3 * RetriesLeft(p, m) + stage
  {
    if ms == [] {
      assert ms + [m] == [m];
    } else {
      assert (ms + [m])[1..] == ms[1..] + [m];
      TotalAppend(p, ms[1..], m, stage);
    }
  }

  lemma {:induction false} TotalWaitingAppend(p: Policy, ws: seq<Waiting>, w: Waiting)
    ensures TotalWaiting(p, ws + [w]) == TotalWaiting(p, ws) + 3 * RetriesLeft(p, w.msg) + 3
  {
    if ws == [] {
      assert ws + [w] == [w];
    } else {
      assert (ws + [w])[1..] == ws[1..] + [w];
      TotalWaitingAppend(p, ws[1..], w);
    }
  }

  lemma DeliverDrops(p: Policy, b: Queues, c: Channel, now: Time)
    requires b.Of(c).ready != []
    ensures Measure(p, Broker.Deliver(b, c, now)) == Measure(p, b) - 1
  {
    TotalAppend(p, b.Of(c).unacked, Taken(b.Of(c).ready[0], now), 1);
  }

  lemma ExpireDrops(p: Policy, b: Queues, now: Time)
    requires BrokerInvariant.Inv(p, b, now) && b.retry != []
    ensures Measure(p, Broker.Expire(b)) == Measure(p, b) - 1
  {
    var w := b.retry[0];
    BrokerInvariant.ReturnsToItsQueue(p, b, now);
    var back := w.msg.(headers := Deaths.Die(w.msg.headers, RETRY_QUEUE, Deaths.Expired));
    TotalAppend(p, b.Of(w.from).ready, back, 2);
  }

  lemma RejectAdds(p: Policy, b: Queues, c: Channel, m: Msg, now: Time)
    requires m.history.rejections < p.Budget()
    ensures Measure(p, Reject(p, b, c, m, now)) <= Measure(p, b) + 3 * RetriesLeft(p, m)
  {
    if m.key in p.retryKeys {
      TotalWaitingAppend(p, b.retry, Reject(p, b, c, m, now).retry[|b.retry|]);
    }
  }

  lemma SettleDrops(p: Policy, b: Queues, c: Channel, err: bool, now: Time)
    requires BrokerInvariant.Inv(p, b, now) && b.Of(c).unacked != []
    ensures Measure(p, Settle(p, b, c, err, Enqueued, now)) < Measure(p, b)
  {
    var u := b.Of(c).unacked[0];
    assert BrokerInvariant.UnackedOk(p, c, u, now);
    assert Measure(p, Pop(b, c)) + 3 * RetriesLeft(p, u) + 1 == Measure(p, b);
    if err && Deaths.Rejections(u.headers) < p.maxRetryAttempts {
      RejectAdds(p, Pop(b, c), c, Tried(u), now);
    }
  }

  // A step of the broker or a consumer, with parks that work.
  predicate IsWork(a: Action) {
    || a.Deliver? || a.Expire?
    || (a.HandleEmail? && a.park.Enqueued?) || (a.HandlePush? && a.park.Enqueued?)
  }

  lemma WorkDrops(cfg: Config, s: State, a: Action)
    requires Inv(cfg, s) && Enabled(cfg, s, a) && IsWork(a)
    ensures Measure(cfg.policy, Next(cfg, s, a).broker) < Measure(cfg.policy, s.broker)
  {
    match a
    case Deliver(c) => DeliverDrops(cfg.policy, s.broker, c, s.now);
    case Expire => ExpireDrops(cfg.policy, s.broker, s.now);
    case HandleEmail(env, _) =>
      SettleDrops(cfg.policy, s.broker, EmailChannel,
                  EmailResult(cfg, s.email, s.broker.email.unacked[0].body, env).err, s.now);
    case HandlePush(env, _) =>
      SettleDrops(cfg.policy, s.broker, PushChannel,
                  PushResult(cfg, s.push, s.broker.push.unacked[0].body, env).err, s.now);
  }

  function WorkIn(actions: seq<Action>): nat {
    if actions == [] then 0
    else WorkIn(actions[..|actions| - 1]) + if IsWork(actions[|actions| - 1]) then 1 else 0
  }

  lemma TickOrWorkDrops(cfg: Config, s: State, a: Action)
    requires Inv(cfg, s) && Enabled(cfg, s, a) && (a.Tick? || IsWork(a))
    ensures Inv(cfg, Next(cfg, s, a))
    ensures (if IsWork(a) then 1 else 0) + Measure(cfg.policy, Next(cfg, s, a).broker) <= Measure(cfg.policy, s.broker)
  {
    StepKeeps(cfg, s, a);
    if IsWork(a) {
      WorkDrops(cfg, s, a);
    }
  }

  lemma WorkInPrefix(actions: seq<Action>, i: nat)
    requires 0 < i <= |actions|
    ensures WorkIn(actions[..i]) == WorkIn(actions[..i - 1]) + if IsWork(actions[i - 1]) then 1 else 0
  {
    assert actions[..i][..i - 1] == actions[..i - 1];
  }

  // Any stretch in which only the clock, the broker and the consumers move
  // contains at most as many of their steps as the measure at its start.
  lemma {:induction false} WorkIsBounded(cfg: Config, states: seq<State>, actions: seq<Action>, i: nat)
    requires Stretch(cfg, states, actions) && Inv(cfg, states[0]) && i <= |actions|
    requires forall k :: 0 <= k < |actions| ==> actions[k].Tick? || IsWork(actions[k])
    ensures Inv(cfg, states[i])
    ensures WorkIn(actions[..i]) + Measure(cfg.policy, states[i].broker) <= Measure(cfg.policy, states[0].broker)
  {
    if i > 0 {
      WorkIsBounded(cfg, states, actions, i - 1);
      WorkInPrefix(actions, i);
      TickOrWorkDrops(cfg, states[i - 1], actions[i - 1]);
    }
  }

  predicate Drained(b: Queues) {
    && b.email == Queue([], []) && b.push == Queue([], []) && b.retry == []
  }

  // An environment in which nothing works.
  function FailingEmail(now: Time): EmailService.Env {
    EmailService.Env(Fails, Fails, Fails, Fails, Fails, 0, now, now, now, EmailService.Refused,
                     Fails, Fails, Fails, EmailService.RolledBack)
  }

  function FailingPush(now: Time): PushService.Env {
    PushService.Env(Fails, now, now, now, PushService.Errored(""), PushService.NotStored)
  }

  // While a message is live some step is possible, if only after the clock has
  // moved to the next deadline.
  lemma WorkRemains(cfg: Config, s: State) returns (later: Time, a: Action)
    requires Inv(cfg, s) && cfg.policy.prefetch > 0 && !Drained(s.broker)
    ensures s.now <= later && IsWork(a) && FailsAtOnce(a) && Enabled(cfg, s.(now := later), a)
  {
    later := s.now;
    var b := s.broker;
    if b.email.unacked != [] {
      assert BrokerInvariant.UnackedOk(cfg.policy, EmailChannel, b.email.unacked[0], s.now);
      a := HandleEmail(FailingEmail(s.now), Enqueued);
    } else if b.push.unacked != [] {
      assert BrokerInvariant.UnackedOk(cfg.policy, PushChannel, b.push.unacked[0], s.now);
      a := HandlePush(FailingPush(s.now), Enqueued);
    } else if b.email.ready != [] {
      a := Deliver(EmailChannel);
    } else if b.push.ready != [] {
      a := Deliver(PushChannel);
    } else {
      later := Max(s.now, b.retry[0].deadline);
      a := Action.Expire;
    }
  }

  // Handlers that fail at their first statement.
  predicate FailsAtOnce(a: Action) {
    match a
    case HandleEmail(env, _) => env.acquire.Fails?
    case HandlePush(env, _) => env.lookup.Fails?
    case _ => true
  }

  // No message has met a failed park or a crash.
  ghost predicate Unhurt(b: Queues) {
    forall m :: BrokerInvariant.Known(b, m) ==> m.history.parkFailures == 0 && m.history.crashes == 0
  }

  // Nothing was published or acknowledged from b to b', nor hurt.
  ghost predicate OnlyRetries(b: Queues, b': Queues) {
    && b'.published == b.published && b'.acked == b.acked
    && (Unhurt(b) ==> Unhurt(b'))
  }

  lemma DeliveryOnlyRetries(b: Queues, c: Channel, now: Time)
    requires b.Of(c).ready != []
    ensures OnlyRetries(b, Broker.Deliver(b, c, now))
  {
    var b' := Broker.Deliver(b, c, now);
    forall m | BrokerInvariant.Known(b', m) && Unhurt(b)
      ensures m.history.parkFailures == 0 && m.history.crashes == 0
    {
      assert BrokerInvariant.Known(b, b.Of(c).ready[0]);
      if m != Taken(b.Of(c).ready[0], now) {
        assert BrokerInvariant.Known(b, m);
      }
    }
  }

  lemma ExpiryOnlyRetries(b: Queues)
    requires b.retry != []
    ensures OnlyRetries(b, Broker.Expire(b))
  {
    var b' := Broker.Expire(b);
    var w := b.retry[0];
    var back := w.msg.(headers := Deaths.Die(w.msg.headers, RETRY_QUEUE, Deaths.Expired));
    forall m | BrokerInvariant.Known(b', m) && Unhurt(b)
      ensures m.history.parkFailures == 0 && m.history.crashes == 0
    {
      assert BrokerInvariant.Known(b, w.msg);
      if m != back {
        assert BrokerInvariant.Known(b, m);
      }
    }
  }

  lemma FailureOnlyRetries(p: Policy, b: Queues, c: Channel, now: Time)
    requires b.Of(c).unacked != []
    ensures OnlyRetries(b, Settle(p, b, c, true, Enqueued, now))
  {
    var b' := Settle(p, b, c, true, Enqueued, now);
    var u := b.Of(c).unacked[0];
    forall m | BrokerInvariant.Known(b', m) && Unhurt(b)
      ensures m.history.parkFailures == 0 && m.history.crashes == 0
    {
      assert BrokerInvariant.Known(b, u);
      if m.history.parkFailures != u.history.parkFailures || m.history.crashes != u.history.crashes {
        assert BrokerInvariant.Known(b, m);
      }
    }
  }

  lemma FailingWorkOnlyRetries(cfg: Config, s: State, a: Action)
    requires Enabled(cfg, s, a) && IsWork(a) && FailsAtOnce(a)
    ensures OnlyRetries(s.broker, Next(cfg, s, a).broker)
  {
    match a
    case Deliver(c) => DeliveryOnlyRetries(s.broker, c, s.now);
    case Expire => ExpiryOnlyRetries(s.broker);
    case HandleEmail(_, _) => FailureOnlyRetries(cfg.policy, s.broker, EmailChannel, s.now);
    case HandlePush(_, _) => FailureOnlyRetries(cfg.policy, s.broker, PushChannel, s.now);
  }

  // A stretch of ticks, broker steps and failing attempts that ends with empty
  // queues.
  ghost predicate Drains(cfg: Config, s: State, states: seq<State>, actions: seq<Action>) {
    && Stretch(cfg, states, actions) && states[0] == s
    && (forall k :: 0 <= k < |actions| ==> actions[k].Tick? || (IsWork(actions[k]) && FailsAtOnce(actions[k])))
    && Drained(states[|actions|].broker) && OnlyRetries(s.broker, states[|actions|].broker)
  }

  lemma Prepend(cfg: Config, s: State, a: Action, states: seq<State>, actions: seq<Action>)
    requires Enabled(cfg, s, a) && (a.Tick? || (IsWork(a) && FailsAtOnce(a)))
    requires Drains(cfg, Next(cfg, s, a), states, actions) && OnlyRetries(s.broker, Next(cfg, s, a).broker)
    ensures Drains(cfg, s, [s] + states, [a] + actions)
  {
    assert ([s] + states)[|actions| + 1] == states[|actions|];
  }

  lemma TickThenWork(cfg: Config, s: State) returns (later: Time, a: Action)
    requires Inv(cfg, s) && cfg.policy.prefetch > 0 && !Drained(s.broker)
    ensures s.now <= later && IsWork(a) && FailsAtOnce(a) && Enabled(cfg, s.(now := later), a)
    ensures var s' := Next(cfg, s.(now := later), a);
            && Inv(cfg, s') && Measure(cfg.policy, s'.broker) < Measure(cfg.policy, s.broker)
            && OnlyRetries(s.broker, s'.broker)
  {
    later, a := WorkRemains(cfg, s);
    StepKeeps(cfg, s, Tick(later));
    StepKeeps(cfg, s.(now := later), a);
    WorkDrops(cfg, s.(now := later), a);
    FailingWorkOnlyRetries(cfg, s.(now := later), a);
  }

  // The queues drain even if every attempt fails: some stretch of broker and
  // consumer steps ends with all of them empty, and by WorkIsBounded no stretch
  // can go on forever instead.
  lemma {:induction false} QueuesDrain(cfg: Config, s: State) returns (states: seq<State>, actions: seq<Action>)
    requires Inv(cfg, s) && cfg.policy.prefetch > 0
    ensures Drains(cfg, s, states, actions)
    decreases Measure(cfg.policy, s.broker)
  {
    if Drained(s.broker) {
      states, actions := [s], [];
    } else {
      var later, a := TickThenWork(cfg, s);
      states, actions := QueuesDrain(cfg, Next(cfg, s.(now := later), a));
      states, actions := PrependTwo(cfg, s, later, a, states, actions);
    }
  }

  lemma PrependTwo(cfg: Config, s: State, later: Time, a: Action, states: seq<State>, actions: seq<Action>)
    returns (states': seq<State>, actions': seq<Action>)
    requires s.now <= later && IsWork(a) && FailsAtOnce(a) && Enabled(cfg, s.(now := later), a)
    requires OnlyRetries(s.broker, Next(cfg, s.(now := later), a).broker)
    requires Drains(cfg, Next(cfg, s.(now := later), a), states, actions)
    ensures Drains(cfg, s, states', actions')
  {
    var ticked := s.(now := later);
    Prepend(cfg, ticked, a, states, actions);
    Prepend(cfg, s, Tick(later), [ticked] + states, [a] + actions);
    states', actions' := [s] + ([ticked] + states), [Tick(later)] + ([a] + actions);
  }
}
