// Whose content was sent: every attempt stems from a published message, and an
// acknowledged message was itself sent unless another one with its request id
// was sent in its place.

module Provenance {
  import opened Common
  import opened Routing
  import opened Broker
  import opened Relay
  import EmailRequest
  import EmailTables
  import EmailService
  import EmailAudit
  import PushService
  import PushAudit
  import BrokerInvariant

  // What a published message asks the services to send.
  function EmailOf(cfg: Config, x: Ident): Option<EmailService.EmailEvent> {
    if Bound(EmailChannel, x.key) then EmailToSend(cfg, x.body) else None
  }

  function PushOf(cfg: Config, x: Ident): Option<PushEvent> {
    if Bound(PushChannel, x.key) then PushToSend(cfg, x.body) else None
  }

  ghost predicate EmailFrom(cfg: Config, x: Ident, t: EmailService.Trace) {
    var ev := EmailOf(cfg, x);
    && ev.Some? && ev.value.requestId == t.requestId
    && ev.value.email == t.email && ev.value.serviceId == t.service
  }

  ghost predicate PushFrom(cfg: Config, x: Ident, t: PushService.Trace) {
    var ev := PushOf(cfg, x);
    ev.Some? && ev.value.requestId == t.requestId && ev.value.notification == t.notification
  }

  // Every attempt stems from a published message.
  ghost predicate Sourced(cfg: Config, s: State) {
    && (forall t :: t in s.email.log ==> exists x :: x in s.broker.published && EmailFrom(cfg, x, t))
    && (forall t :: t in s.push.log ==> exists x :: x in s.broker.published && PushFrom(cfg, x, t))
  }

  // ---- Every step keeps it ----

  lemma EmailAttemptIsSourced(cfg: Config, s: State, env: EmailService.Env)
    requires Inv(cfg, s) && Sourced(cfg, s) && s.broker.email.unacked != []
    ensures var after := EmailAfter(cfg, s.email, s.broker.email.unacked[0].body, env);
            forall t :: t in after.log ==> exists x :: x in s.broker.published && EmailFrom(cfg, x, t)
  {
    var m := s.broker.email.unacked[0];
    if EmailToSend(cfg, m.body).Some? {
      var ev := EmailToSend(cfg, m.body).value;
      EmailAudit.TraceShape(cfg.email, s.email.tables, s.email.circuit, ev, env);
      assert BrokerInvariant.UnackedOk(cfg.policy, EmailChannel, m, s.now);
      BrokerInvariant.KnownWasPublished(cfg.policy, s.broker, m);
      assert EmailFrom(
          cfg, IdentOf(m), EmailService.SendEmail(cfg.email, s.email.tables, s.email.circuit, ev, env).trace);
    }
  }

  lemma PushAttemptIsSourced(cfg: Config, s: State, env: PushService.Env)
    requires Inv(cfg, s) && Sourced(cfg, s) && s.broker.push.unacked != [] && env.validatedAt <= env.start
    ensures var after := PushAfter(cfg, s.push, s.broker.push.unacked[0].body, env);
            forall t :: t in after.log ==> exists x :: x in s.broker.published && PushFrom(cfg, x, t)
  {
    var m := s.broker.push.unacked[0];
    if PushToSend(cfg, m.body).Some? {
      var ev := PushToSend(cfg, m.body).value;
      PushAudit.AttemptTraceOk(
        cfg.push, s.push.table, s.push.circuit, ev.notification, ev.requestId, env);
      assert BrokerInvariant.UnackedOk(cfg.policy, PushChannel, m, s.now);
      BrokerInvariant.KnownWasPublished(cfg.policy, s.broker, m);
      assert PushFrom(
          cfg, IdentOf(m),
          PushService.SendPush(cfg.push, s.push.table, s.push.circuit, ev.notification, ev.requestId, env).trace);
    }
  }

  lemma StepKeepsPublished(cfg: Config, s: State, a: Action)
    requires Enabled(cfg, s, a)
    ensures s.broker.published <= Next(cfg, s, a).broker.published
  {
    match a
    case HandleEmail(env, park) =>
      SettleKeepsPublished(cfg.policy, s.broker, EmailChannel,
                           EmailResult(cfg, s.email, s.broker.email.unacked[0].body, env).err, park, s.now);
    case HandlePush(env, park) =>
      SettleKeepsPublished(cfg.policy, s.broker, PushChannel,
                           PushResult(cfg, s.push, s.broker.push.unacked[0].body, env).err, park, s.now);
    case _ =>
  }

  lemma SettleKeepsPublished(p: Policy, b: Queues, c: Channel, err: bool, park: Park, now: Time)
    requires b.Of(c).unacked != []
    ensures Settle(p, b, c, err, park, now).published == b.published
  {
  }

  // The logs after a step, wherever it was cut off.
  lemma StepLogs(cfg: Config, s: State, a: Action)
    requires Inv(cfg, s) && Sourced(cfg, s) && Enabled(cfg, s, a)
    ensures forall t :: t in Next(cfg, s, a).email.log ==> exists x :: x in s.broker.published && EmailFrom(cfg, x, t)
    ensures forall t :: t in Next(cfg, s, a).push.log ==> exists x :: x in s.broker.published && PushFrom(cfg, x, t)
  {
    match a
    case HandleEmail(env, _) => EmailAttemptIsSourced(cfg, s, env);
    case HandlePush(env, _) => PushAttemptIsSourced(cfg, s, env);
    case Crash(emailCut, pushCut) =>
      if !emailCut.Idle? {
        EmailAttemptIsSourced(cfg, s, emailCut.env);
      }
      if !pushCut.Idle? {
        PushAttemptIsSourced(cfg, s, pushCut.env);
      }
    case _ =>
  }

  lemma StepKeepsSources(cfg: Config, s: State, a: Action)
    requires Inv(cfg, s) && Sourced(cfg, s) && Enabled(cfg, s, a)
    ensures Sourced(cfg, Next(cfg, s, a))
  {
    StepLogs(cfg, s, a);
    StepKeepsPublished(cfg, s, a);
    MoreSources(cfg, s, Next(cfg, s, a));
  }

  lemma MoreSources(cfg: Config, s: State, s': State)
    requires s.broker.published <= s'.broker.published
    requires forall t :: t in s'.email.log ==> exists x :: x in s.broker.published && EmailFrom(cfg, x, t)
    requires forall t :: t in s'.push.log ==> exists x :: x in s.broker.published && PushFrom(cfg, x, t)
    ensures Sourced(cfg, s')
  {
    assert forall x :: x in s.broker.published ==> x in s'.broker.published;
  }

  lemma NextIsSourced(cfg: Config, states: seq<State>, actions: seq<Action>, i: nat)
    requires Behavior(cfg, states, actions) && i < |actions| && Sourced(cfg, states[i])
    ensures Sourced(cfg, states[i + 1])
  {
    InvAlong(cfg, states, actions, i);
    StepKeepsSources(cfg, states[i], actions[i]);
  }

  lemma {:induction false} SourcedAlong(cfg: Config, states: seq<State>, actions: seq<Action>, i: nat)
    requires Behavior(cfg, states, actions) && i <= |actions|
    ensures Sourced(cfg, states[i])
  {
    if i > 0 {
      SourcedAlong(cfg, states, actions, i - 1);
      NextIsSourced(cfg, states, actions, i - 1);
    }
  }

  // ---- What an acknowledgement means ----

  // Resend accepted what the message asks to send and the tables say so;
  // OneSignal likewise, with an answer that could be read.
  ghost predicate EmailSent(cfg: Config, s: State, x: Ident) {
    && EmailOf(cfg, x).Some?
    && EmailAudit.ContentDispatched(s.email.log, EmailOf(cfg, x).value.requestId, EmailOf(cfg, x).value.email)
  }

  ghost predicate PushSent(cfg: Config, s: State, x: Ident) {
    && PushOf(cfg, x).Some?
    && PushAudit.ContentSent(
         cfg.push, s.push.log, PushOf(cfg, x).value.requestId, PushOf(cfg, x).value.notification)
  }

  // Another message with the same request id but other content.
  ghost predicate EmailRival(cfg: Config, x: Ident, y: Ident) {
    && EmailOf(cfg, x).Some? && EmailOf(cfg, y).Some?
    && EmailOf(cfg, x).value.requestId == EmailOf(cfg, y).value.requestId
    && EmailOf(cfg, x).value.email != EmailOf(cfg, y).value.email
  }

  ghost predicate PushRival(cfg: Config, x: Ident, y: Ident) {
    && PushOf(cfg, x).Some? && PushOf(cfg, y).Some?
    && PushOf(cfg, x).value.requestId == PushOf(cfg, y).value.requestId
    && PushOf(cfg, x).value.notification != PushOf(cfg, y).value.notification
  }

  lemma DispatchedEmailIsItsOwnOrRivals(cfg: Config, s: State, x: Ident)
    requires EmailAudit.Inv(cfg.email, s.email) && Sourced(cfg, s) && EmailOf(cfg, x).Some?
    requires EmailService.IsDispatched(s.email.tables, EmailOf(cfg, x).value.requestId)
    ensures EmailSent(cfg, s, x) || exists y :: y in s.broker.published && EmailRival(cfg, x, y) && EmailSent(cfg, s, y)
  {
    var requestId := EmailOf(cfg, x).value.requestId;
    EmailAudit.DuplicateCheckIsExact(cfg.email, s.email, requestId);
    var t :| t in s.email.log && EmailAudit.CommittedFor(t, requestId)
             && EmailAudit.LineFor(t.verdict).status.Sent?;
    var y :| y in s.broker.published && EmailFrom(cfg, y, t);
    assert EmailSent(cfg, s, y);
  }

  lemma SentPushIsItsOwnOrRivals(cfg: Config, s: State, x: Ident)
    requires PushAudit.Inv(cfg.push, s.push) && Sourced(cfg, s) && PushOf(cfg, x).Some?
    requires PushService.IsSent(s.push.table, PushOf(cfg, x).value.requestId)
    ensures PushSent(cfg, s, x) || exists y :: y in s.broker.published && PushRival(cfg, x, y) && PushSent(cfg, s, y)
  {
    var requestId := PushOf(cfg, x).value.requestId;
    PushAudit.DuplicateCheckIsExact(cfg.push, s.push, requestId);
    var t :| t in s.push.log && t.requestId == requestId && t.stored.Some? && t.stored.value.status.Sent?;
    assert PushAudit.TraceOk(cfg.push, t) && PushAudit.SentAndStored(cfg.push, t);
    var y :| y in s.broker.published && PushFrom(cfg, y, t);
    assert PushSent(cfg, s, y);
  }

  // In every reachable state an acknowledged message was sent with its own
  // content, or another published message with its request id was sent instead.
  lemma AcknowledgedWasSentOrRivaled(cfg: Config, states: seq<State>, actions: seq<Action>, i: nat, m: Msg)
    requires Behavior(cfg, states, actions) && i <= |actions| && m in states[i].broker.acked
    ensures var s, x := states[i], IdentOf(m);
            && x in s.broker.published
            && (|| EmailSent(cfg, s, x) || PushSent(cfg, s, x)
                || (exists y :: y in s.broker.published && EmailRival(cfg, x, y) && EmailSent(cfg, s, y))
                || (exists y :: y in s.broker.published && PushRival(cfg, x, y) && PushSent(cfg, s, y)))
  {
    InvAlong(cfg, states, actions, i);
    SourcedAlong(cfg, states, actions, i);
    AckedMeansSent(cfg, states[i], m);
  }

  lemma AckedMeansSent(cfg: Config, s: State, m: Msg)
    requires Inv(cfg, s) && Sourced(cfg, s) && m in s.broker.acked
    ensures var x := IdentOf(m);
            && x in s.broker.published
            && (|| EmailSent(cfg, s, x) || PushSent(cfg, s, x)
                || (exists y :: y in s.broker.published && EmailRival(cfg, x, y) && EmailSent(cfg, s, y))
                || (exists y :: y in s.broker.published && PushRival(cfg, x, y) && PushSent(cfg, s, y)))
  {
    BrokerInvariant.KnownWasPublished(cfg.policy, s.broker, m);
    assert AckedOk(cfg, s, m);
    if Bound(EmailChannel, m.key) {
      BoundKeys(EmailChannel, m.key);
      DispatchedEmailIsItsOwnOrRivals(cfg, s, IdentOf(m));
    } else {
      SentPushIsItsOwnOrRivals(cfg, s, IdentOf(m));
    }
  }

  // No request id is used for two contents.
  ghost predicate IdsAreUnique(cfg: Config, published: seq<Ident>) {
    forall x, y :: x in published && y in published ==> !EmailRival(cfg, x, y) && !PushRival(cfg, x, y)
  }

  // So with request ids of their own, acknowledged messages were all sent.
  lemma AcknowledgedWasSent(cfg: Config, states: seq<State>, actions: seq<Action>, i: nat, m: Msg)
    requires Behavior(cfg, states, actions) && i <= |actions| && m in states[i].broker.acked
    requires IdsAreUnique(cfg, states[i].broker.published)
    ensures EmailSent(cfg, states[i], IdentOf(m)) || PushSent(cfg, states[i], IdentOf(m))
  {
    AcknowledgedWasSentOrRivaled(cfg, states, actions, i, m);
  }

  // With unique request ids every dispatch row carries its own request's email.
  lemma PayloadsRepresentTheirRow(
    cfg: Config, states: seq<State>, actions: seq<Action>, i: nat, requestId: string, d: EmailTables.DispatchRow)
    requires Behavior(cfg, states, actions) && i <= |actions|
    requires IdsAreUnique(cfg, states[i].broker.published) && requestId in states[i].email.tables.requests
    requires d in states[i].email.tables.dispatches
    requires d.request == states[i].email.tables.requests[requestId].id
    ensures EmailRequest.Represents(cfg.email.codec, d.payload, states[i].email.tables.requests[requestId].email)
  {
    InvAlong(cfg, states, actions, i);
    SourcedAlong(cfg, states, actions, i);
    PayloadIsOfTheRow(cfg, states[i], requestId, d);
  }

  lemma PayloadIsOfTheRow(cfg: Config, s: State, requestId: string, d: EmailTables.DispatchRow)
    requires EmailAudit.Inv(cfg.email, s.email) && Sourced(cfg, s) && IdsAreUnique(cfg, s.broker.published)
    requires requestId in s.email.tables.requests
    requires d in s.email.tables.dispatches && d.request == s.email.tables.requests[requestId].id
    ensures EmailRequest.Represents(cfg.email.codec, d.payload, s.email.tables.requests[requestId].email)
  {
    EmailAudit.LogRefinesAttempts(cfg.email, s.email, requestId);
    var t := EmailAudit.DispatchHasAttempt(cfg.email, s.email, requestId, d);
    var first := EmailAudit.FirstCommittedAttempt(s.email.log, requestId);
    SameIdSameEmail(cfg, s, t, first);
    assert EmailAudit.TraceOk(cfg.email, t);
  }

  lemma SameIdSameEmail(cfg: Config, s: State, t: EmailService.Trace, u: EmailService.Trace)
    requires Sourced(cfg, s) && IdsAreUnique(cfg, s.broker.published)
    requires t in s.email.log && u in s.email.log && t.requestId == u.requestId
    ensures t.email == u.email
  {
    var x :| x in s.broker.published && EmailFrom(cfg, x, t);
    var y :| y in s.broker.published && EmailFrom(cfg, y, u);
    assert !EmailRival(cfg, x, y);
  }

  // ---- A run in which an acknowledged message was never sent ----

  // Two messages are published, delivered and acknowledged one after the other.
  function Script(p: Policy, first: Body, second: Body, now: Time): (bs: seq<Queues>)
    ensures |bs| == 7
  {
    var b1 := Broker.Publish(EMPTY, EMAIL_KEY, first);
    var b2 := Broker.Publish(b1, EMAIL_KEY, second);
    var b3 := Broker.Deliver(b2, EmailChannel, now);
    var b4 := Settle(p, b3, EmailChannel, false, Enqueued, now);
    var b5 := Broker.Deliver(b4, EmailChannel, now);
    [EMPTY, b1, b2, b3, b4, b5, Settle(p, b5, EmailChannel, false, Enqueued, now)]
  }

  predicate Delivered(q: Queue, body: Body, now: Time) {
    q.unacked != [] && q.unacked[0].body == body && q.unacked[0].history.delivered == now
  }

  predicate IsScript(p: Policy, bs: seq<Queues>, first: Body, second: Body, now: Time) {
    && |bs| == 7
    && bs[1] == Broker.Publish(bs[0], EMAIL_KEY, first) && bs[2] == Broker.Publish(bs[1], EMAIL_KEY, second)
    && bs[2].email.ready != [] && bs[2].email.unacked == []
    && bs[3] == Broker.Deliver(bs[2], EmailChannel, now) && Delivered(bs[3].email, first, now)
    && bs[4] == Settle(p, bs[3], EmailChannel, false, Enqueued, now)
    && bs[4].email.ready != [] && bs[4].email.unacked == []
    && bs[5] == Broker.Deliver(bs[4], EmailChannel, now) && Delivered(bs[5].email, second, now)
    && bs[6] == Settle(p, bs[5], EmailChannel, false, Enqueued, now)
  }

  lemma ScriptShape(p: Policy, first: Body, second: Body, now: Time)
    ensures var bs := Script(p, first, second, now);
            && bs[0] == EMPTY && IsScript(p, bs, first, second, now)
            && |bs[6].acked| == 2 && IdentOf(bs[6].acked[1]) == Ident(1, EMAIL_KEY, second)
  {
    DeclaredKeysAreBound();
  }

  // Two emails with one request id, the first of which can be sent, and an
  // environment in which everything works at once.
  ghost predicate Clash(cfg: Config, first: Body, second: Body, env: EmailService.Env, now: Time) {
    var x, y := EmailToSend(cfg, first), EmailToSend(cfg, second);
    && x.Some? && y.Some? && x.value.requestId == y.value.requestId && x.value.email != y.value.email
    && x.value.email.to.Some? && EmailRequest.Convert(cfg.email.codec, x.value.email).Success?
    && EmailAudit.Healthy(EmailAudit.Fresh(now).tables, x.value, env)
    && env.reply.Accepted? && env.start == env.end == now
  }

  lemma ClashResults(cfg: Config, first: Body, second: Body, env: EmailService.Env, now: Time)
    requires Clash(cfg, first, second, env, now)
    ensures var s0 := EmailAudit.Fresh(now);
            var s1 := EmailAfter(cfg, s0, first, env);
            var y := EmailToSend(cfg, second).value;
            && EmailResult(cfg, s0, first, env) == Returned(false) && s1.clock == now
            && EmailResult(cfg, s1, second, env) == Returned(false)
            && !EmailAudit.ContentAccepted(EmailAfter(cfg, s1, second, env).log, y.requestId, y.email)
  {
    var x, y := EmailToSend(cfg, first).value, EmailToSend(cfg, second).value;
    var s0 := EmailAudit.Fresh(now);
    var s1 := EmailAfter(cfg, s0, first, env);
    EmailAudit.FreshInv(cfg.email, now);
    EmailAudit.HealthySendSucceeds(cfg.email, s0, x, env);
    EmailAudit.FirstIsSent(cfg.email, now, x, env);
    EmailAudit.DispatchedIsFinal(cfg.email, s1.tables, s1.circuit, y, env);
    EmailAudit.TraceShape(cfg.email, s1.tables, s1.circuit, y, env);
    EmailAudit.SecondOfTwo(
      s1.log, EmailService.SendEmail(cfg.email, s1.tables, s1.circuit, y, env).trace, y.requestId, y.email);
  }

  // Both messages end up acknowledged, but only the first was sent.
  lemma AcknowledgedButNeverSent(cfg: Config, first: Body, second: Body, env: EmailService.Env, now: Time)
    returns (states: seq<State>, actions: seq<Action>)
    requires Clash(cfg, first, second, env, now) && cfg.policy.prefetch > 0
    ensures Behavior(cfg, states, actions) && |actions| == 6
    ensures |states[6].broker.acked| == 2
    ensures var x := IdentOf(states[6].broker.acked[1]);
            && EmailOf(cfg, x) == EmailToSend(cfg, second) && EmailOf(cfg, x).Some?
            && var y := EmailOf(cfg, x).value;
               !EmailAudit.ContentAccepted(states[6].email.log, y.requestId, y.email)
  {
    var bs := Script(cfg.policy, first, second, now);
    var e0, p := EmailAudit.Fresh(now), PushAudit.Fresh(now);
    var e1 := EmailAfter(cfg, e0, first, env);
    var e2 := EmailAfter(cfg, e1, second, env);
    ScriptShape(cfg.policy, first, second, now);
    ClashResults(cfg, first, second, env, now);
    DeclaredKeysAreBound();
    var s0, s1, s2 := State(now, bs[0], e0, p), State(now, bs[1], e0, p), State(now, bs[2], e0, p);
    var s3, s4, s5, s6 := State(now, bs[3], e0, p), State(now, bs[4], e1, p), State(now, bs[5], e1, p),
                          State(now, bs[6], e2, p);
    var publish, publish', deliver, handle :=
      Action.Publish(EMAIL_KEY, first), Action.Publish(EMAIL_KEY, second), Action.Deliver(EmailChannel),
      HandleEmail(env, Enqueued);
    SuccessIsAStep(cfg, bs[3], bs[4], e0, e1, p, first, env, now);
    SuccessIsAStep(cfg, bs[5], bs[6], e1, e2, p, second, env, now);
    QuietAreSteps(cfg, bs, first, second, e0, e1, p, now);
    states, actions := [s0], [];
    states, actions := Extend(cfg, states, actions, publish, s1);
    states, actions := Extend(cfg, states, actions, publish', s2);
    states, actions := Extend(cfg, states, actions, deliver, s3);
    states, actions := Extend(cfg, states, actions, handle, s4);
    states, actions := Extend(cfg, states, actions, deliver, s5);
    states, actions := Extend(cfg, states, actions, handle, s6);
  }

  ghost predicate StepsTo(cfg: Config, s: State, a: Action, s': State) {
    Enabled(cfg, s, a) && s' == Next(cfg, s, a)
  }

  lemma Extend(cfg: Config, states: seq<State>, actions: seq<Action>, a: Action, s: State)
    returns (states': seq<State>, actions': seq<Action>)
    requires Stretch(cfg, states, actions) && StepsTo(cfg, states[|actions|], a, s)
    ensures Stretch(cfg, states', actions') && |actions'| == |actions| + 1
    ensures states'[0] == states[0] && states'[|actions'|] == s
  {
    states', actions' := states + [s], actions + [a];
  }

  lemma QuietAreSteps(
    cfg: Config, bs: seq<Queues>, first: Body, second: Body, e0: EmailAudit.Side, e1: EmailAudit.Side,
    p: PushAudit.Side, now: Time)
    requires IsScript(cfg.policy, bs, first, second, now) && cfg.policy.prefetch > 0
    ensures StepsTo(cfg, State(now, bs[0], e0, p), Action.Publish(EMAIL_KEY, first), State(now, bs[1], e0, p))
    ensures StepsTo(cfg, State(now, bs[1], e0, p), Action.Publish(EMAIL_KEY, second), State(now, bs[2], e0, p))
    ensures StepsTo(cfg, State(now, bs[2], e0, p), Action.Deliver(EmailChannel), State(now, bs[3], e0, p))
    ensures StepsTo(cfg, State(now, bs[4], e1, p), Action.Deliver(EmailChannel), State(now, bs[5], e1, p))
  {
  }

  lemma SuccessIsAStep(
    cfg: Config, b: Queues, b': Queues, e: EmailAudit.Side, e': EmailAudit.Side, p: PushAudit.Side, body: Body,
    env: EmailService.Env, now: Time)
    requires Delivered(b.email, body, now) && b' == Settle(cfg.policy, b, EmailChannel, false, Enqueued, now)
    requires e.clock == env.start == env.end == now
    requires e' == EmailAfter(cfg, e, body, env) && EmailResult(cfg, e, body, env) == Returned(false)
    ensures StepsTo(cfg, State(now, b, e, p), HandleEmail(env, Enqueued), State(now, b', e', p))
  {
  }
}
