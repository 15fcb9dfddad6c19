// The condition of Outage.NeverParked cannot be relaxed: a run in which the
// provider works again one nanosecond too late for the last retry.

module Tightness {
  import opened Common
  import opened Logs
  import opened Routing
  import opened Broker
  import opened Relay
  import opened Providers
  import opened Resilience
  import Deaths
  import EmailRequest
  import EmailTables
  import EmailService
  import EmailAudit
  import BrokerInvariant
  import Outage

  // A breaker that trips at the first failure and stays open for as long as all
  // retries take, and an email that can be sent.
  ghost predicate Tuned(cfg: Config, body: Body) {
    && cfg.policy.prefetch > 0 && EMAIL_KEY in cfg.policy.retryKeys && cfg.policy.maxRetryAttempts >= 1
    && cfg.email.breaker.Trip() == 1
    && cfg.email.breaker.Timeout() == cfg.policy.maxRetryAttempts * cfg.policy.Delay()
    && EmailToSend(cfg, body).Some?
    && var ev := EmailToSend(cfg, body).value;
       ev.email.to.Some? && EmailRequest.Convert(cfg.email.codec, ev.email).Success?
  }

  // Everything works except Resend.
  function Working(now: Time, newId: EmailTables.Uuid): EmailService.Env {
    EmailService.Env(Ok, Ok, Ok, Ok, Ok, newId, now, now, now, EmailService.Refused,
                     Ok, Ok, Ok, EmailService.Committed)
  }

  lemma {:induction false} Above(ids: set<nat>) returns (id: nat)
    ensures forall other :: other in ids ==> other < id
  {
    if ids == {} {
      id := 0;
    } else {
      var some :| some in ids;
      var below := Above(ids - {some});
      id := Max(below, some + 1);
      assert forall other :: other in ids && other != some ==> other in ids - {some};
    }
  }

  lemma UnusedId(t: EmailTables.Tables) returns (id: EmailTables.Uuid)
    ensures forall q :: q in t.requests ==> t.requests[q].id != id
  {
    var ids := set q | q in t.requests :: t.requests[q].id;
    id := Above(ids);
    assert forall q :: q in t.requests ==> t.requests[q].id in ids;
  }

  // ---- The email side ----

  // The first attempt, at d, opens the breaker.
  lemma FirstAttemptOpens(cfg: Config, body: Body, d: Time, env: EmailService.Env)
    requires Tuned(cfg, body) && env == Working(d, env.newId)
    ensures var s := EmailAfter(cfg, EmailAudit.Fresh(d), body, env);
            && EmailResult(cfg, EmailAudit.Fresh(d), body, env) == Returned(true)
            && Down(cfg, s, body, d)
  {
    var ev, s := EmailToSend(cfg, body).value, EmailAudit.Fresh(d);
    EmailAudit.FreshInv(cfg.email, d);
    EmailAudit.HealthyAttempt(cfg.email, s, ev, env);
    CollectAppend(
      s.log, EmailService.SendEmail(cfg.email, s.tables, s.circuit, ev, env).trace, EmailAudit.CallOf);
  }

  // Resend failed at d and has not been called since.
  ghost predicate Down(cfg: Config, s: EmailAudit.Side, body: Body, d: Time) {
    && s.circuit == Open(d + cfg.email.breaker.Timeout())
    && EmailAudit.CallsOf(s.log) == [Attempt(d, d, false)]
    && EmailToSend(cfg, body).Some?
    && !EmailService.IsDispatched(s.tables, EmailToSend(cfg, body).value.requestId)
  }

  // Attempts until the opening has expired leave it so.
  lemma LaterAttemptIsRefused(cfg: Config, s: EmailAudit.Side, body: Body, d: Time, env: EmailService.Env)
    requires Tuned(cfg, body) && EmailAudit.Inv(cfg.email, s) && Down(cfg, s, body, d)
    requires env == Working(env.start, env.newId) && env.start <= d + cfg.email.breaker.Timeout()
    requires forall q :: q in s.tables.requests ==> s.tables.requests[q].id != env.newId
    ensures EmailResult(cfg, s, body, env) == Returned(true)
    ensures Down(cfg, EmailAfter(cfg, s, body, env), body, d)
  {
    var ev := EmailToSend(cfg, body).value;
    assert !Admits(cfg.email.breaker, s.circuit, env.start);
    RefusedSend(cfg, s, ev, env);
  }

  // A refused attempt changes neither the breaker nor the record of calls, and
  // leaves the request undispatched.
  lemma RefusedSend(cfg: Config, s: EmailAudit.Side, ev: EmailService.EmailEvent, env: EmailService.Env)
    requires EmailAudit.Inv(cfg.email, s) && EmailTables.NAMESPACE <= ev.serviceId
    requires EmailAudit.Healthy(s.tables, ev, env) && ev.email.to.Some?
    requires EmailRequest.Convert(cfg.email.codec, ev.email).Success?
    requires !EmailService.IsDispatched(s.tables, ev.requestId) && !Admits(cfg.email.breaker, s.circuit, env.start)
    ensures var run := EmailService.SendEmail(cfg.email, s.tables, s.circuit, ev, env);
            && run.result == Returned(true) && run.circuit == s.circuit
            && EmailAudit.CallsOf(s.log + [run.trace]) == EmailAudit.CallsOf(s.log)
            && !EmailService.IsDispatched(run.tables, ev.requestId)
  {
    EmailAudit.HealthyAttempt(cfg.email, s, ev, env);
    CollectAppend(
      s.log, EmailService.SendEmail(cfg.email, s.tables, s.circuit, ev, env).trace, EmailAudit.CallOf);
  }

  // ---- The broker side ----

  // The k-th rejection of the only message has happened; it waits.
  ghost predicate Waits(p: Policy, b: Queues, body: Body, d: Time, k: nat) {
    && b.email == Queue([], []) && b.push == Queue([], []) && b.shelved == []
    && |b.retry| == 1
    && var w := b.retry[0];
       && w.msg.id == 0 && w.msg.key == EMAIL_KEY && w.msg.body == body
       && w.msg.history.first == Some(d) && w.msg.history.rejections == k
       && w.deadline == d + k * p.Delay()
  }

  // It is being handled at the time it is due.
  ghost predicate Handled(p: Policy, b: Queues, body: Body, d: Time, k: nat) {
    && b.email.ready == [] && b.push == Queue([], []) && b.retry == [] && b.shelved == []
    && |b.email.unacked| == 1
    && var m := b.email.unacked[0];
       && m.id == 0 && m.key == EMAIL_KEY && m.body == body
       && m.history.first == Some(d) && m.history.rejections == k && m.history.delivered == d + k * p.Delay()
  }

  lemma DeliveredAtOnce(p: Policy, body: Body, d: Time)
    ensures var b := Broker.Publish(EMPTY, EMAIL_KEY, body);
            && b.email.ready != [] && b.email.unacked == []
            && Handled(p, Broker.Deliver(b, EmailChannel, d), body, d, 0)
  {
    DeclaredKeysAreBound();
  }

  lemma RedeliveredWhenDue(p: Policy, b: Queues, body: Body, d: Time, k: nat)
    requires Waits(p, b, body, d, k)
    ensures var b' := Broker.Expire(b);
            && b'.email.ready != [] && b'.email.unacked == [] && b'.push == Queue([], [])
            && Handled(p, Broker.Deliver(b', EmailChannel, d + k * p.Delay()), body, d, k)
  {
    DeclaredKeysAreBound();
  }

  lemma RejectedAgain(p: Policy, b: Queues, body: Body, d: Time, k: nat)
    requires Handled(p, b, body, d, k) && k < p.maxRetryAttempts && EMAIL_KEY in p.retryKeys
    requires Deaths.Rejections(b.email.unacked[0].headers) == k
    ensures Waits(p, Settle(p, b, EmailChannel, true, Enqueued, d + k * p.Delay()), body, d, k + 1)
  {
    assert (k + 1) * p.Delay() == k * p.Delay() + p.Delay();
  }

  lemma ParkedInTheEnd(p: Policy, b: Queues, body: Body, d: Time, k: nat)
    requires Handled(p, b, body, d, k) && k >= p.maxRetryAttempts
    requires Deaths.Rejections(b.email.unacked[0].headers) == k
    ensures Settle(p, b, EmailChannel, true, Enqueued, d + k * p.Delay()).shelved == [Tried(b.email.unacked[0])]
  {
  }

  // ---- The run ----

  // Message 0 is served, and its last retry comes an open timeout after d.
  ghost predicate ServedAlong(cfg: Config, states: seq<State>, actions: seq<Action>, d: Time) {
    && |states| == |actions| + 1
    && (forall j :: 0 <= j < |actions| ==> Outage.Served(cfg, states[j], actions[j], EmailChannel, 0))
    && (forall j :: 0 <= j < |states| ==> Outage.Outlasts(cfg, states[j], EmailChannel, 0, d))
  }

  // A run that meets every condition for message 0 when Resend works from d + 1
  // on, except that its last retry is due a nanosecond too early.
  ghost predicate Almost(cfg: Config, states: seq<State>, actions: seq<Action>, d: Time) {
    Behavior(cfg, states, actions) && ServedAlong(cfg, states, actions, d)
  }

  // Only deliveries whose first was at d.
  predicate FirstAt(b: Queues, d: Time) {
    forall m :: m in b.email.unacked ==> m.history.first == Some(d)
  }

  lemma FirstAtOutlasts(cfg: Config, s: State, body: Body, d: Time)
    requires Tuned(cfg, body) && FirstAt(s.broker, d)
    ensures Outage.Outlasts(cfg, s, EmailChannel, 0, d)
  {
  }

  lemma Extend(cfg: Config, states: seq<State>, actions: seq<Action>, a: Action, body: Body, d: Time)
    returns (states': seq<State>, actions': seq<Action>)
    requires Tuned(cfg, body) && Almost(cfg, states, actions, d) && Enabled(cfg, states[|actions|], a)
    requires Outage.Served(cfg, states[|actions|], a, EmailChannel, 0)
    requires FirstAt(Next(cfg, states[|actions|], a).broker, d)
    ensures Almost(cfg, states', actions', d) && |actions'| == |actions| + 1
    ensures states'[|actions'|] == Next(cfg, states[|actions|], a)
  {
    var s := Next(cfg, states[|actions|], a);
    FirstAtOutlasts(cfg, s, body, d);
    states', actions' := states + [s], actions + [a];
    ExtendBehavior(cfg, states, actions, a);
    ExtendService(cfg, states, actions, s, a, d);
  }

  lemma ExtendBehavior(cfg: Config, states: seq<State>, actions: seq<Action>, a: Action)
    requires Behavior(cfg, states, actions) && Enabled(cfg, states[|actions|], a)
    ensures Behavior(cfg, states + [Next(cfg, states[|actions|], a)], actions + [a])
  {
  }

  lemma ExtendService(cfg: Config, states: seq<State>, actions: seq<Action>, s: State, a: Action, d: Time)
    requires ServedAlong(cfg, states, actions, d)
    requires Outage.Served(cfg, states[|actions|], a, EmailChannel, 0)
    requires Outage.Outlasts(cfg, s, EmailChannel, 0, d)
    ensures ServedAlong(cfg, states + [s], actions + [a], d)
  {
  }

  // At the start of a handling.
  ghost predicate Ready(cfg: Config, s: State, body: Body, d: Time, k: nat) {
    && Handled(cfg.policy, s.broker, body, d, k) && s.now == d + k * cfg.policy.Delay()
    && (if k == 0 then s.email == EmailAudit.Fresh(d) else Down(cfg, s.email, body, d))
  }

  // At the end of it, k rejections.
  ghost predicate Over(cfg: Config, s: State, body: Body, d: Time, k: nat) {
    && Down(cfg, s.email, body, d) && s.now <= d + k * cfg.policy.Delay()
    && Waits(cfg.policy, s.broker, body, d, k)
  }

  lemma InTime(cfg: Config, body: Body, k: nat)
    requires Tuned(cfg, body) && k <= cfg.policy.maxRetryAttempts
    ensures k * cfg.policy.Delay() <= cfg.email.breaker.Timeout()
  {
  }

  // One handling fails, and its settling is as the broker has it.
  lemma HandlingFails(cfg: Config, s: State, body: Body, d: Time, k: nat) returns (a: Action)
    requires Tuned(cfg, body) && Inv(cfg, s) && Ready(cfg, s, body, d, k) && k <= cfg.policy.maxRetryAttempts
    ensures a.HandleEmail? && Enabled(cfg, s, a) && Outage.Served(cfg, s, a, EmailChannel, 0)
    ensures var s' := Next(cfg, s, a);
            && Down(cfg, s'.email, body, d) && s'.now == s.now
            && s'.broker == Settle(cfg.policy, s.broker, EmailChannel, true, Enqueued, s.now)
  {
    var id := UnusedId(s.email.tables);
    var env := Working(s.now, id);
    a := HandleEmail(env, Enqueued);
    AttemptFails(cfg, s, body, d, k, env);
    ServedByWorking(cfg, s, body, env);
  }

  lemma AttemptFails(cfg: Config, s: State, body: Body, d: Time, k: nat, env: EmailService.Env)
    requires Tuned(cfg, body) && EmailAudit.Inv(cfg.email, s.email)
    requires Ready(cfg, s, body, d, k) && k <= cfg.policy.maxRetryAttempts
    requires env == Working(s.now, env.newId)
    requires forall q :: q in s.email.tables.requests ==> s.email.tables.requests[q].id != env.newId
    ensures EmailResult(cfg, s.email, body, env) == Returned(true)
    ensures Down(cfg, EmailAfter(cfg, s.email, body, env), body, d)
  {
    if k == 0 {
      FirstAttemptOpens(cfg, body, d, env);
    } else {
      InTime(cfg, body, k);
      LaterAttemptIsRefused(cfg, s.email, body, d, env);
    }
  }

  lemma ServedByWorking(cfg: Config, s: State, body: Body, env: EmailService.Env)
    requires Tuned(cfg, body) && s.broker.email.unacked != [] && s.broker.email.unacked[0].body == body
    requires env == Working(s.now, env.newId)
    requires forall q :: q in s.email.tables.requests ==> s.email.tables.requests[q].id != env.newId
    ensures Outage.Served(cfg, s, HandleEmail(env, Enqueued), EmailChannel, 0)
  {
  }

  lemma HeaderCounts(cfg: Config, s: State, body: Body, d: Time, k: nat)
    requires Inv(cfg, s) && Handled(cfg.policy, s.broker, body, d, k)
    ensures Deaths.Rejections(s.broker.email.unacked[0].headers) == k
  {
    assert BrokerInvariant.UnackedOk(cfg.policy, EmailChannel, s.broker.email.unacked[0], s.now);
  }

  // Published and delivered at d.
  lemma Start(cfg: Config, body: Body, d: Time) returns (states: seq<State>, actions: seq<Action>)
    requires Tuned(cfg, body)
    ensures Almost(cfg, states, actions, d) && Ready(cfg, states[|actions|], body, d, 0)
  {
    DeliveredAtOnce(cfg.policy, body, d);
    states, actions := [Initial(d)], [];
    FirstAtOutlasts(cfg, Initial(d), body, d);
    states, actions := Extend(cfg, states, actions, Action.Publish(EMAIL_KEY, body), body, d);
    states, actions := Extend(cfg, states, actions, Action.Deliver(EmailChannel), body, d);
  }

  // From the k-th rejection to the next handling.
  lemma Redelivery(cfg: Config, states: seq<State>, actions: seq<Action>, body: Body, d: Time, k: nat)
    returns (states': seq<State>, actions': seq<Action>)
    requires Tuned(cfg, body) && Almost(cfg, states, actions, d) && 0 < k
    requires Over(cfg, states[|actions|], body, d, k)
    ensures Almost(cfg, states', actions', d) && Ready(cfg, states'[|actions'|], body, d, k)
  {
    var due := d + k * cfg.policy.Delay();
    RedeliveredWhenDue(cfg.policy, states[|actions|].broker, body, d, k);
    states', actions' := Extend(cfg, states, actions, Tick(due), body, d);
    states', actions' := Extend(cfg, states', actions', Action.Expire, body, d);
    states', actions' := Extend(cfg, states', actions', Action.Deliver(EmailChannel), body, d);
  }

  // To the k-th rejection.
  lemma {:induction false} Rejections(cfg: Config, body: Body, d: Time, k: nat)
    returns (states: seq<State>, actions: seq<Action>)
    requires Tuned(cfg, body) && 0 < k <= cfg.policy.maxRetryAttempts
    ensures Almost(cfg, states, actions, d) && Over(cfg, states[|actions|], body, d, k)
  {
    if k == 1 {
      states, actions := Start(cfg, body, d);
    } else {
      states, actions := Rejections(cfg, body, d, k - 1);
      states, actions := Redelivery(cfg, states, actions, body, d, k - 1);
    }
    states, actions := Rejection(cfg, states, actions, body, d, k - 1);
  }

  lemma Rejection(cfg: Config, states: seq<State>, actions: seq<Action>, body: Body, d: Time, k: nat)
    returns (states': seq<State>, actions': seq<Action>)
    requires Tuned(cfg, body) && Almost(cfg, states, actions, d) && k < cfg.policy.maxRetryAttempts
    requires Ready(cfg, states[|actions|], body, d, k)
    ensures Almost(cfg, states', actions', d) && Over(cfg, states'[|actions'|], body, d, k + 1)
  {
    var s := states[|actions|];
    InvAlong(cfg, states, actions, |actions|);
    HeaderCounts(cfg, s, body, d, k);
    RejectedAgain(cfg.policy, s.broker, body, d, k);
    var a := HandlingFails(cfg, s, body, d, k);
    states', actions' := Extend(cfg, states, actions, a, body, d);
  }

  // Resend works from d + 1 on, which is one nanosecond too late: the message is
  // shelved, although it is served at every attempt and everything else works.
  lemma OneNanosecondLess(cfg: Config, body: Body, d: Time)
    returns (states: seq<State>, actions: seq<Action>, m: Msg)
    requires Tuned(cfg, body)
    ensures Almost(cfg, states, actions, d) && WorksFrom(CallsIn(states[|actions|], EmailChannel), d + 1)
    ensures m in states[|actions|].broker.shelved && m.id == 0 && m.history.first.Some?
    ensures d + 1 + cfg.email.breaker.Timeout() == Outage.LastRetryDue(cfg.policy, m) + 1
  {
    var n := cfg.policy.maxRetryAttempts;
    states, actions := Rejections(cfg, body, d, n);
    states, actions := Redelivery(cfg, states, actions, body, d, n);
    var s := states[|actions|];
    InvAlong(cfg, states, actions, |actions|);
    HeaderCounts(cfg, s, body, d, n);
    ParkedInTheEnd(cfg.policy, s.broker, body, d, n);
    var a := HandlingFails(cfg, s, body, d, n);
    m := Tried(s.broker.email.unacked[0]);
    states, actions := Extend(cfg, states, actions, a, body, d);
  }
}
