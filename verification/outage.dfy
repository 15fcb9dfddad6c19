// A message outlives a provider outage that ends early enough.

module Outage {
  import opened Common
  import opened Routing
  import opened Broker
  import opened Relay
  import opened Providers
  import opened Resilience
  import Deaths
  import EmailRequest
  import EmailService
  import EmailAudit
  import PushService
  import PushAudit
  import BrokerInvariant

  // ---- Parking ----

  // The consumer of channel c finds its oldest delivery failed and out of
  // retries, and goes on to park it. Crashing after that counts.
  predicate TriesToPark(cfg: Config, s: State, a: Action, c: Channel) {
    && s.broker.Of(c).unacked != []
    && match a
       case HandleEmail(env, _) =>
         c.EmailChannel? && Exhausted(cfg, s.broker.email.unacked[0])
         && EmailResult(cfg, s.email, s.broker.email.unacked[0].body, env) == Returned(true)
       case HandlePush(env, _) =>
         c.PushChannel? && Exhausted(cfg, s.broker.push.unacked[0])
         && PushResult(cfg, s.push, s.broker.push.unacked[0].body, env) == Returned(true)
       case Crash(emailCut, pushCut) => if c.EmailChannel? then emailCut.AfterParking? else pushCut.AfterParking?
       case _ => false
  }

  lemma SettlingParks(p: Policy, b: Queues, c: Channel, err: bool, park: Park, now: Time)
    requires b.Of(c).unacked != []
    requires !err || Deaths.Rejections(b.Of(c).unacked[0].headers) < p.maxRetryAttempts
    ensures Settle(p, b, c, err, park, now).parked == b.parked
    ensures Settle(p, b, c, err, park, now).shelved == b.shelved
  {
  }

  // Nothing else puts a copy into the parked queue or settles a message by
  // parking it.
  lemma ParkedOnlyByTrying(cfg: Config, s: State, a: Action)
    requires Enabled(cfg, s, a)
    requires !TriesToPark(cfg, s, a, EmailChannel) && !TriesToPark(cfg, s, a, PushChannel)
    ensures Next(cfg, s, a).broker.parked == s.broker.parked
    ensures Next(cfg, s, a).broker.shelved == s.broker.shelved
  {
    match a
    case HandleEmail(env, park) =>
      SettlingParks(cfg.policy, s.broker, EmailChannel,
                    EmailResult(cfg, s.email, s.broker.email.unacked[0].body, env).err, park, s.now);
    case HandlePush(env, park) =>
      SettlingParks(cfg.policy, s.broker, PushChannel,
                    PushResult(cfg, s.push, s.broker.push.unacked[0].body, env).err, park, s.now);
    case Crash(emailCut, pushCut) =>
      NotParkingCutsKeep(cfg.policy, s.broker, EmailChannel, Relay.Interruption(emailCut));
      NotParkingCutsKeep(
        cfg.policy, Requeue(cfg.policy, s.broker, EmailChannel, Relay.Interruption(emailCut)), PushChannel,
        Relay.Interruption(pushCut));
    case _ =>
  }

  lemma NotParkingCutsKeep(p: Policy, b: Queues, c: Channel, how: Broker.Interruption)
    requires !how.RunningAndParked? || b.Of(c).unacked == []
    ensures Requeue(p, b, c, how).parked == b.parked && Requeue(p, b, c, how).shelved == b.shelved
  {
  }

  // What a crash puts there: a copy for each consumer that it caught between
  // parking and acknowledging.
  lemma CrashParksExactly(cfg: Config, s: State, a: Action)
    requires a.Crash? && Enabled(cfg, s, a)
    ensures Next(cfg, s, a).broker.parked == s.broker.parked
              + (if a.emailCut.AfterParking? && cfg.policy.parkedDeclared then [s.broker.email.unacked[0].body] else [])
              + (if a.pushCut.AfterParking? && cfg.policy.parkedDeclared then [s.broker.push.unacked[0].body] else [])
  {
    var halfway := Requeue(cfg.policy, s.broker, EmailChannel, Relay.Interruption(a.emailCut));
    CutParksExactly(cfg.policy, s.broker, EmailChannel, Relay.Interruption(a.emailCut));
    CutParksExactly(cfg.policy, halfway, PushChannel, Relay.Interruption(a.pushCut));
  }

  // A cut counts as an attempt and a crash of the message that was being
  // handled.
  lemma CutParksExactly(p: Policy, b: Queues, c: Channel, how: Broker.Interruption)
    ensures var b' := Requeue(p, b, c, how);
            && b'.parked == b.parked +
                 (if how == RunningAndParked && b.Of(c).unacked != [] && p.parkedDeclared
                  then [b.Of(c).unacked[0].body] else [])
            && (forall c' :: c' != c ==> b'.Of(c') == b.Of(c'))
            && (how != NotRunning && b.Of(c).unacked != [] ==>
                  && b'.Of(c).ready != []
                  && b'.Of(c).ready[0].history.attempts == b.Of(c).unacked[0].history.attempts + 1
                  && b'.Of(c).ready[0].history.crashes == b.Of(c).unacked[0].history.crashes + 1)
  {
  }

  // The deadline of a message's last retry: its first delivery plus the whole
  // budget of delays.
  function LastRetryDue(p: Policy, m: Msg): Time
    requires m.history.first.Some?
  {
    m.history.first.value + p.maxRetryAttempts * p.Delay()
  }

  // A message out of retries is handled no earlier than its last retry is due.
  lemma LastAttemptIsLate(p: Policy, c: Channel, m: Msg, now: Time)
    requires BrokerInvariant.UnackedOk(p, c, m, now) && Deaths.Rejections(m.headers) >= p.maxRetryAttempts
    ensures LastRetryDue(p, m) <= m.history.delivered
  {
    assert p.maxRetryAttempts * p.Delay() <= m.history.rejections * p.Delay();
  }

  // ---- What survival takes ----

  // The message is valid at this attempt and the database does its part.
  ghost predicate ServesEmail(cfg: Config, s: EmailAudit.Side, body: Body, env: EmailService.Env) {
    && EmailToSend(cfg, body).Some?
    && var ev := EmailToSend(cfg, body).value;
       && ev.email.to.Some? && EmailRequest.Convert(cfg.email.codec, ev.email).Success?
       && EmailAudit.Healthy(s.tables, ev, env)
  }

  ghost predicate ServesPush(cfg: Config, body: Body, env: PushService.Env) {
    && PushToSend(cfg, body).Some?
    && var n := PushToSend(cfg, body).value.notification;
       && PushService.Valid(cfg.push.codec, n, env.validatedAt)
       && PushAudit.Healthy(cfg.push, n, env)
  }

  // Whenever the handler of channel c runs to its end for message id, it is
  // served so.
  ghost predicate Served(cfg: Config, s: State, a: Action, c: Channel, id: nat) {
    s.broker.Of(c).unacked != [] && s.broker.Of(c).unacked[0].id == id ==>
      var body := s.broker.Of(c).unacked[0].body;
      match a
      case HandleEmail(env, _) => c.EmailChannel? ==> ServesEmail(cfg, s.email, body, env)
      case HandlePush(env, _) => c.PushChannel? ==> ServesPush(cfg, body, env)
      case Crash(emailCut, pushCut) =>
        && (c.EmailChannel? && emailCut.AfterParking? ==> ServesEmail(cfg, s.email, body, emailCut.env))
        && (c.PushChannel? && pushCut.AfterParking? ==> ServesPush(cfg, body, pushCut.env))
      case _ => true
  }

  // The last retry of message id comes no earlier than the open timeout after r.
  ghost predicate Outlasts(cfg: Config, s: State, c: Channel, id: nat, r: Time) {
    forall m :: m in s.broker.Of(c).unacked && m.id == id && m.history.first.Some? ==>
      r + SettingsOf(cfg, c).Timeout() <= LastRetryDue(cfg.policy, m)
  }

  // ---- The last attempt succeeds ----

  lemma LateEmailIsDelivered(cfg: Config, s: State, env: EmailService.Env, r: Time)
    requires Inv(cfg, s) && EmailMayRun(s, env) && Exhausted(cfg, s.broker.email.unacked[0])
    requires ServesEmail(cfg, s.email, s.broker.email.unacked[0].body, env)
    requires var call := EmailCall(cfg, s.email, s.broker.email.unacked[0].body, env);
             call != [] && r <= call[0].end ==> call[0].ok
    requires s.email.circuit.Open? ==> s.email.circuit.expiry < r + cfg.email.breaker.Timeout()
    requires s.broker.email.unacked[0].history.first.Some?
    requires r + cfg.email.breaker.Timeout() <= LastRetryDue(cfg.policy, s.broker.email.unacked[0])
    ensures EmailResult(cfg, s.email, s.broker.email.unacked[0].body, env) == Returned(false)
  {
    var m := s.broker.email.unacked[0];
    var ev := EmailToSend(cfg, m.body).value;
    assert BrokerInvariant.UnackedOk(cfg.policy, EmailChannel, m, s.now);
    LastAttemptIsLate(cfg.policy, EmailChannel, m, s.now);
    EmailAudit.SendMovesBreakerByItsCallOnly(cfg.email, s.email.tables, s.email.circuit, ev, env);
    EmailAudit.HealthySendSucceeds(cfg.email, s.email, ev, env);
  }

  lemma LatePushIsDelivered(cfg: Config, s: State, env: PushService.Env, r: Time)
    requires Inv(cfg, s) && PushMayRun(s, env) && Exhausted(cfg, s.broker.push.unacked[0])
    requires ServesPush(cfg, s.broker.push.unacked[0].body, env)
    requires var call := PushCall(cfg, s.push, s.broker.push.unacked[0].body, env);
             call != [] && r <= call[0].end ==> call[0].ok
    requires s.push.circuit.Open? ==> s.push.circuit.expiry < r + cfg.push.breaker.Timeout()
    requires s.broker.push.unacked[0].history.first.Some?
    requires r + cfg.push.breaker.Timeout() <= LastRetryDue(cfg.policy, s.broker.push.unacked[0])
    ensures PushResult(cfg, s.push, s.broker.push.unacked[0].body, env) == Returned(false)
  {
    var m := s.broker.push.unacked[0];
    var ev := PushToSend(cfg, m.body).value;
    assert BrokerInvariant.UnackedOk(cfg.policy, PushChannel, m, s.now);
    LastAttemptIsLate(cfg.policy, PushChannel, m, s.now);
    PushAudit.SendMovesBreakerByItsCallOnly(
      cfg.push, s.push.table, s.push.circuit, ev.notification, ev.requestId, env);
    PushAudit.HealthySendSucceeds(cfg.push, s.push, ev.notification, ev.requestId, env);
  }

  lemma ServedIsNotParked(cfg: Config, s: State, a: Action, c: Channel, id: nat, r: Time)
    requires Inv(cfg, s) && Enabled(cfg, s, a)
    requires CircuitOf(s, c).Open? ==> CircuitOf(s, c).expiry < r + SettingsOf(cfg, c).Timeout()
    requires WorksFrom(CallIn(cfg, s, a, c), r) && Served(cfg, s, a, c, id) && Outlasts(cfg, s, c, id, r)
    requires s.broker.Of(c).unacked != [] && s.broker.Of(c).unacked[0].id == id
    ensures !TriesToPark(cfg, s, a, c)
  {
    if TriesToPark(cfg, s, a, c) {
      assert BrokerInvariant.UnackedOk(cfg.policy, c, s.broker.Of(c).unacked[0], s.now);
      if c.EmailChannel? {
        LateEmailIsDelivered(cfg, s, if a.HandleEmail? then a.emailEnv else a.emailCut.env, r);
      } else {
        LatePushIsDelivered(cfg, s, if a.HandlePush? then a.pushEnv else a.pushCut.env, r);
      }
    }
  }

  // ---- Survival over runs ----

  // The provider of c recovers at r, message id is always served and its last
  // retry comes no earlier than the open timeout after that.
  ghost predicate Recovers(cfg: Config, states: seq<State>, actions: seq<Action>, c: Channel, id: nat, r: Time) {
    && |states| == |actions| + 1
    && WorksFrom(CallsIn(states[|actions|], c), r)
    && (forall j :: 0 <= j < |actions| ==> Served(cfg, states[j], actions[j], c, id))
    && (forall j :: 0 <= j < |states| ==> Outlasts(cfg, states[j], c, id, r))
  }

  lemma WorksBefore(calls: seq<Attempt>, all: seq<Attempt>, r: Time)
    requires calls <= all && WorksFrom(all, r)
    ensures WorksFrom(calls, r)
  {
  }

  // Before a step no opening outlives r by the open timeout, and a call that
  // the step makes works if it ends at r or later.
  lemma BreakerAtStep(cfg: Config, states: seq<State>, actions: seq<Action>, i: nat, c: Channel, r: Time)
    requires Behavior(cfg, states, actions) && i < |actions| && WorksFrom(CallsIn(states[|actions|], c), r)
    ensures CircuitOf(states[i], c).Open? ==> CircuitOf(states[i], c).expiry < r + SettingsOf(cfg, c).Timeout()
    ensures WorksFrom(CallIn(cfg, states[i], actions[i], c), r)
  {
    var before, call := CallsIn(states[i], c), CallIn(cfg, states[i], actions[i], c);
    InvAlong(cfg, states, actions, i);
    var after := StepMovesBreaker(cfg, states[i], actions[i], c);
    CallsOnlyGrow(cfg, states, actions, i + 1, |actions|, c);
    WorksBefore(before + call, CallsIn(states[|actions|], c), r);
    BreakerIsItsCalls(cfg, states, actions, i, c);
    WorksAround(before, call, EpochOf(states[i], c), r);
    OpeningsExpire(SettingsOf(cfg, c), before[EpochOf(states[i], c)..], r);
  }

  lemma WorksAround(before: seq<Attempt>, call: seq<Attempt>, epoch: nat, r: Time)
    requires WorksFrom(before + call, r) && epoch <= |before|
    ensures WorksFrom(before[epoch..], r) && WorksFrom(call, r)
  {
    assert forall k :: 0 <= k < |before| - epoch ==> before[epoch..][k] == (before + call)[epoch + k];
    assert forall k :: 0 <= k < |call| ==> call[k] == (before + call)[|before| + k];
  }

  // A message that is valid and whose database steps work is never even tried
  // for parking when its provider recovers in time. Other messages, crashes at
  // any point and the other channel may do as they like.
  lemma NeverTriedForParking(
    cfg: Config, states: seq<State>, actions: seq<Action>, i: nat, c: Channel, id: nat, r: Time)
    requires Behavior(cfg, states, actions) && i < |actions| && Recovers(cfg, states, actions, c, id, r)
    requires states[i].broker.Of(c).unacked != [] && states[i].broker.Of(c).unacked[0].id == id
    ensures !TriesToPark(cfg, states[i], actions[i], c)
  {
    InvAlong(cfg, states, actions, i);
    BreakerAtStep(cfg, states, actions, i, c, r);
    assert Served(cfg, states[i], actions[i], c, id) && Outlasts(cfg, states[i], c, id, r);
    ServedIsNotParked(cfg, states[i], actions[i], c, id, r);
  }

  predicate Shelved(b: Queues, c: Channel, id: nat) {
    exists m :: m in b.shelved && m.id == id && Bound(c, m.key)
  }

  // Who is shelved by a settling.
  lemma SettlingShelves(p: Policy, b: Queues, c: Channel, err: bool, park: Park, now: Time, m: Msg)
    requires b.Of(c).unacked != []
    requires m in Settle(p, b, c, err, park, now).shelved && m !in b.shelved
    ensures m == Tried(b.Of(c).unacked[0]) && err && Deaths.Rejections(m.headers) >= p.maxRetryAttempts
  {
  }

  // Only its own channel can shelve a message.
  lemma SettledByItsChannel(cfg: Config, s: State, c': Channel, c: Channel, m: Msg)
    requires Inv(cfg, s) && s.broker.Of(c').unacked != [] && m == Tried(s.broker.Of(c').unacked[0]) && Bound(c, m.key)
    ensures c' == c
  {
    assert BrokerInvariant.UnackedOk(cfg.policy, c', s.broker.Of(c').unacked[0], s.now);
    BoundKeys(c, m.key);
  }

  lemma HandlingShelves(cfg: Config, s: State, a: Action, m: Msg) returns (c: Channel)
    requires Enabled(cfg, s, a) && m in Next(cfg, s, a).broker.shelved && m !in s.broker.shelved
    ensures TriesToPark(cfg, s, a, c) && m == Tried(s.broker.Of(c).unacked[0])
  {
    if a.HandleEmail? {
      c := EmailChannel;
      SettlingShelves(cfg.policy, s.broker, c,
                      EmailResult(cfg, s.email, s.broker.email.unacked[0].body, a.emailEnv).err, a.park, s.now, m);
    } else {
      c := PushChannel;
      SettlingShelves(cfg.policy, s.broker, c,
                      PushResult(cfg, s.push, s.broker.push.unacked[0].body, a.pushEnv).err, a.park, s.now, m);
    }
  }

  lemma NotShelvedNext(cfg: Config, states: seq<State>, actions: seq<Action>, i: nat, c: Channel, id: nat, r: Time)
    requires Behavior(cfg, states, actions) && i < |actions| && Recovers(cfg, states, actions, c, id, r)
    requires !Shelved(states[i].broker, c, id)
    ensures !Shelved(states[i + 1].broker, c, id)
  {
    InvAlong(cfg, states, actions, i);
    forall m | m in states[i + 1].broker.shelved && m !in states[i].broker.shelved && Bound(c, m.key)
      ensures m.id != id
    {
      var c' := HandlingShelves(cfg, states[i], actions[i], m);
      SettledByItsChannel(cfg, states[i], c', c, m);
      if m.id == id {
        NeverTriedForParking(cfg, states, actions, i, c, id, r);
      }
    }
  }

  // It is never parked.
  lemma {:induction false} NeverParked(
    cfg: Config, states: seq<State>, actions: seq<Action>, i: nat, c: Channel, id: nat, r: Time)
    requires Behavior(cfg, states, actions) && i <= |actions| && Recovers(cfg, states, actions, c, id, r)
    ensures !Shelved(states[i].broker, c, id)
  {
    if i > 0 {
      NeverParked(cfg, states, actions, i - 1, c, id, r);
      NotShelvedNext(cfg, states, actions, i - 1, c, id, r);
    } else {
      assert states[0].broker.shelved == [];
    }
  }

  // One nanosecond less is not enough: when the last failed call ended just
  // before r, an exhausted message that is handled just before the open timeout
  // has passed since r goes on to be parked.
  lemma SurvivalIsTight(cfg: Config, s: State, a: Action, c: Channel, r: Time)
    requires Enabled(cfg, s, a) && CircuitOf(s, c) == Open(r - 1 + SettingsOf(cfg, c).Timeout())
    requires s.broker.Of(c).unacked != [] && Exhausted(cfg, s.broker.Of(c).unacked[0])
    requires if c.EmailChannel? then
               && a.HandleEmail? && a.emailEnv.start == r - 1 + cfg.email.breaker.Timeout()
               && var ev := EmailToSend(cfg, s.broker.email.unacked[0].body);
                  ev.Some? && !EmailService.IsDispatched(s.email.tables, ev.value.requestId)
             else
               && a.HandlePush? && a.pushEnv.start == r - 1 + cfg.push.breaker.Timeout()
               && var ev := PushToSend(cfg, s.broker.push.unacked[0].body);
                  ev.Some? && !PushService.IsSent(s.push.table, ev.value.requestId)
    ensures TriesToPark(cfg, s, a, c)
  {
    if c.EmailChannel? {
      var ev := EmailToSend(cfg, s.broker.email.unacked[0].body).value;
      if EmailResult(cfg, s.email, s.broker.email.unacked[0].body, a.emailEnv) == Returned(false) {
        EmailAudit.SuccessSendsUnlessDispatched(cfg.email, s.email.tables, s.email.circuit, ev, a.emailEnv);
        EmailAudit.SendMovesBreakerByItsCallOnly(cfg.email, s.email.tables, s.email.circuit, ev, a.emailEnv);
      }
    } else {
      var ev := PushToSend(cfg, s.broker.push.unacked[0].body).value;
      if PushResult(cfg, s.push, s.broker.push.unacked[0].body, a.pushEnv) == Returned(false) {
        PushAudit.SuccessSendsUnlessSent(
          cfg.push, s.push.table, s.push.circuit, ev.notification, ev.requestId, a.pushEnv);
        PushAudit.SendMovesBreakerByItsCallOnly(
          cfg.push, s.push.table, s.push.circuit, ev.notification, ev.requestId, a.pushEnv);
      }
    }
  }
}
