// The relay as one transition system with a clock: broker, the two sequential
// consumers, the two services with their tables and breakers, and crashes.

module Relay {
  import opened Common
  import opened Routing
  import opened Broker
  import Deaths
  import EmailTables
  import EmailService
  import EmailAudit
  import PushService
  import PushAudit
  import BrokerInvariant

  datatype PushEvent = PushEvent(
    notification: PushService.Notification, eventType: string, serviceId: string, requestId: string)

  // Limits, provider settings, and JSON decoding of message bodies.
  datatype Config = Config(
    policy: Policy, email: EmailService.Config, push: PushService.Config,
    decodeEmail: Body -> Option<EmailService.EmailEvent>, decodePush: Body -> Option<PushEvent>)

  datatype State = State(now: Time, broker: Queues, email: EmailAudit.Side, push: PushAudit.Side)

  function Initial(now: Time): State {
    State(now, EMPTY, EmailAudit.Fresh(now), PushAudit.Fresh(now))
  }

  // ---- The handlers: decode, namespace, event type, send ----

  function EmailToSend(cfg: Config, body: Body): Option<EmailService.EmailEvent> {
    var decoded := cfg.decodeEmail(body);
    if decoded.Some? && EmailTables.NAMESPACE <= decoded.value.serviceId && decoded.value.eventType == "email.send"
    then decoded else None
  }

  function PushToSend(cfg: Config, body: Body): Option<PushEvent> {
    var decoded := cfg.decodePush(body);
    if decoded.Some? && EmailTables.NAMESPACE <= decoded.value.serviceId && decoded.value.eventType == "push.send"
    then decoded else None
  }

  function EmailResult(cfg: Config, s: EmailAudit.Side, body: Body, env: EmailService.Env): SendResult {
    match EmailToSend(cfg, body)
    case None => Returned(true)
    case Some(ev) => EmailService.SendEmail(cfg.email, s.tables, s.circuit, ev, env).result
  }

  function EmailAfter(cfg: Config, s: EmailAudit.Side, body: Body, env: EmailService.Env): EmailAudit.Side {
    match EmailToSend(cfg, body)
    case None => s
    case Some(ev) => EmailAudit.Attempted(cfg.email, s, ev, env)
  }

  function PushResult(cfg: Config, s: PushAudit.Side, body: Body, env: PushService.Env): SendResult {
    match PushToSend(cfg, body)
    case None => Returned(true)
    case Some(ev) => PushService.SendPush(cfg.push, s.table, s.circuit, ev.notification, ev.requestId, env).result
  }

  function PushAfter(cfg: Config, s: PushAudit.Side, body: Body, env: PushService.Env): PushAudit.Side {
    match PushToSend(cfg, body)
    case None => s
    case Some(ev) => PushAudit.Attempted(cfg.push, s, ev.notification, ev.requestId, env)
  }

  // What a handler passes on: an event that decodes, from a service in the
  // namespace, of the type that the channel is for. It adds one attempt with the
  // event's request id and content; anything else changes nothing and is an
  // error.
  ghost predicate EmailHandled(
    cfg: Config, s: EmailAudit.Side, s': EmailAudit.Side, body: Body, result: SendResult) {
    var decoded := cfg.decodeEmail(body);
    if decoded != None && "io.opencrafts." <= decoded.value.serviceId && decoded.value.eventType == "email.send" then
      && |s'.log| == |s.log| + 1 && s'.log[..|s.log|] == s.log
      && var t := s'.log[|s.log|];
         && t.requestId == decoded.value.requestId && t.email == decoded.value.email
         && t.service == decoded.value.serviceId
    else
      s' == s && result == Returned(true)
  }

  ghost predicate PushHandled(
    cfg: Config, s: PushAudit.Side, s': PushAudit.Side, body: Body, result: SendResult) {
    var decoded := cfg.decodePush(body);
    if decoded != None && "io.opencrafts." <= decoded.value.serviceId && decoded.value.eventType == "push.send" then
      && |s'.log| == |s.log| + 1 && s'.log[..|s.log|] == s.log
      && var t := s'.log[|s.log|];
         t.requestId == decoded.value.requestId && t.notification == decoded.value.notification
    else
      s' == s && result == Returned(true)
  }

  lemma EmailIsHandled(cfg: Config, s: EmailAudit.Side, body: Body, env: EmailService.Env)
    ensures EmailHandled(cfg, s, EmailAfter(cfg, s, body, env), body, EmailResult(cfg, s, body, env))
  {
    if EmailToSend(cfg, body).Some? {
      EmailAudit.TraceShape(cfg.email, s.tables, s.circuit, EmailToSend(cfg, body).value, env);
    }
  }

  lemma PushIsHandled(cfg: Config, s: PushAudit.Side, body: Body, env: PushService.Env)
    ensures PushHandled(cfg, s, PushAfter(cfg, s, body, env), body, PushResult(cfg, s, body, env))
  {
    if PushToSend(cfg, body).Some? {
      var ev := PushToSend(cfg, body).value;
      PushAudit.TraceShape(cfg.push, s.table, s.circuit, ev.notification, ev.requestId, env);
    }
  }

  // ---- Steps ----

  // How far the consumer of one channel got before the process died.
  datatype Cut<E> = Idle | During(env: E) | AfterParking(env: E)

  datatype Action =
    | Tick(later: Time)
    | Publish(key: RoutingKey, body: Body)
    | Deliver(channel: Channel)
    | HandleEmail(emailEnv: EmailService.Env, park: Park)
    | HandlePush(pushEnv: PushService.Env, park: Park)
    | Expire
    | Crash(emailCut: Cut<EmailService.Env>, pushCut: Cut<PushService.Env>)

  // The handler runs after the delivery and after the consumer's previous one.
  predicate EmailMayRun(s: State, env: EmailService.Env) {
    && s.broker.email.unacked != []
    && s.broker.email.unacked[0].history.delivered <= env.start
    && s.email.clock <= env.start <= env.end <= s.now
  }

  predicate PushMayRun(s: State, env: PushService.Env) {
    && s.broker.push.unacked != []
    && s.broker.push.unacked[0].history.delivered <= env.validatedAt
    && PushAudit.InTime(s.push, env) && env.end <= s.now
  }

  predicate Exhausted(cfg: Config, m: Msg) {
    Deaths.Rejections(m.headers) >= cfg.policy.maxRetryAttempts
  }

  predicate EmailMayBeCut(cfg: Config, s: State, cut: Cut<EmailService.Env>) {
    match cut
    case Idle => true
    case During(env) => EmailMayRun(s, env)
    case AfterParking(env) =>
      && EmailMayRun(s, env) && Exhausted(cfg, s.broker.email.unacked[0])
      && EmailResult(cfg, s.email, s.broker.email.unacked[0].body, env) == Returned(true)
  }

  predicate PushMayBeCut(cfg: Config, s: State, cut: Cut<PushService.Env>) {
    match cut
    case Idle => true
    case During(env) => PushMayRun(s, env)
    case AfterParking(env) =>
      && PushMayRun(s, env) && Exhausted(cfg, s.broker.push.unacked[0])
      && PushResult(cfg, s.push, s.broker.push.unacked[0].body, env) == Returned(true)
  }

  predicate Enabled(cfg: Config, s: State, a: Action) {
    match a
    case Tick(later) => s.now <= later
    case Publish(_, _) => true
    case Deliver(c) => s.broker.Of(c).ready != [] && |s.broker.Of(c).unacked| < cfg.policy.prefetch
    case HandleEmail(env, _) =>
      EmailMayRun(s, env) && EmailResult(cfg, s.email, s.broker.email.unacked[0].body, env).Returned?
    case HandlePush(env, _) =>
      PushMayRun(s, env) && PushResult(cfg, s.push, s.broker.push.unacked[0].body, env).Returned?
    case Expire => s.broker.retry != [] && s.broker.retry[0].deadline <= s.now
    case Crash(emailCut, pushCut) => EmailMayBeCut(cfg, s, emailCut) && PushMayBeCut(cfg, s, pushCut)
  }

  function EmailAfterCut(cfg: Config, s: State, cut: Cut<EmailService.Env>): EmailAudit.Side
    requires EmailMayBeCut(cfg, s, cut)
  {
    EmailAudit.Restarted(
      if cut.Idle? then s.email else EmailAfter(cfg, s.email, s.broker.email.unacked[0].body, cut.env))
  }

  function PushAfterCut(cfg: Config, s: State, cut: Cut<PushService.Env>): PushAudit.Side
    requires PushMayBeCut(cfg, s, cut)
  {
    PushAudit.Restarted(if cut.Idle? then s.push else PushAfter(cfg, s.push, s.broker.push.unacked[0].body, cut.env))
  }

  function Interruption<E>(cut: Cut<E>): Broker.Interruption {
    match cut
    case Idle => NotRunning
    case During(_) => Running
    case AfterParking(_) => RunningAndParked
  }

  function Next(cfg: Config, s: State, a: Action): State
    requires Enabled(cfg, s, a)
  {
    match a
    case Tick(later) => s.(now := later)
    case Publish(key, body) => s.(broker := Broker.Publish(s.broker, key, body))
    case Deliver(c) => s.(broker := Broker.Deliver(s.broker, c, s.now))
    case HandleEmail(env, park) =>
      var body := s.broker.email.unacked[0].body;
      s.(email := EmailAfter(cfg, s.email, body, env),
         broker := Settle(cfg.policy, s.broker, EmailChannel, EmailResult(cfg, s.email, body, env).err, park, s.now))
    case HandlePush(env, park) =>
      var body := s.broker.push.unacked[0].body;
      s.(push := PushAfter(cfg, s.push, body, env),
         broker := Settle(cfg.policy, s.broker, PushChannel, PushResult(cfg, s.push, body, env).err, park, s.now))
    case Expire => s.(broker := Broker.Expire(s.broker))
    case Crash(emailCut, pushCut) =>
      var requeued := Requeue(cfg.policy, s.broker, EmailChannel, Interruption(emailCut));
      State(s.now, Requeue(cfg.policy, requeued, PushChannel, Interruption(pushCut)),
            EmailAfterCut(cfg, s, emailCut), PushAfterCut(cfg, s, pushCut))
  }

  // Any stretch of a run.
  ghost predicate Stretch(cfg: Config, states: seq<State>, actions: seq<Action>) {
    && |states| == |actions| + 1
    && forall i :: 0 <= i < |actions| ==>
         Enabled(cfg, states[i], actions[i]) && states[i + 1] == Next(cfg, states[i], actions[i])
  }

  // A run from empty queues and seeded tables.
  ghost predicate Behavior(cfg: Config, states: seq<State>, actions: seq<Action>) {
    Stretch(cfg, states, actions) && states[0] == Initial(states[0].now)
  }

  // ---- The invariant of the whole ----

  // An acknowledged message was handled successfully: the row of its request
  // says that it was sent.
  ghost predicate AckedOk(cfg: Config, s: State, m: Msg) {
    || (Bound(EmailChannel, m.key) && EmailToSend(cfg, m.body).Some?
        && EmailService.IsDispatched(s.email.tables, EmailToSend(cfg, m.body).value.requestId))
    || (Bound(PushChannel, m.key) && PushToSend(cfg, m.body).Some?
        && PushService.IsSent(s.push.table, PushToSend(cfg, m.body).value.requestId))
  }

  ghost predicate Inv(cfg: Config, s: State) {
    && BrokerInvariant.Inv(cfg.policy, s.broker, s.now)
    && EmailAudit.Inv(cfg.email, s.email) && s.email.clock <= s.now
    && PushAudit.Inv(cfg.push, s.push) && s.push.clock <= s.now
    && forall m :: m in s.broker.acked ==> AckedOk(cfg, s, m)
  }

  lemma InitialInv(cfg: Config, now: Time)
    ensures Inv(cfg, Initial(now))
  {
    BrokerInvariant.InitialInv(cfg.policy, now);
    EmailAudit.FreshInv(cfg.email, now);
    PushAudit.FreshInv(cfg.push, now);
  }

  // What one use of a handler does to its side.
  lemma EmailAfterKeeps(cfg: Config, s: EmailAudit.Side, body: Body, env: EmailService.Env)
    requires EmailAudit.Inv(cfg.email, s) && s.clock <= env.start <= env.end
    ensures var s' := EmailAfter(cfg, s, body, env);
            && EmailAudit.Inv(cfg.email, s') && s'.clock <= env.end
            && s.log <= s'.log && |s'.log| <= |s.log| + 1 && s'.epoch == s.epoch
            && (forall q :: EmailService.IsDispatched(s.tables, q) ==> EmailService.IsDispatched(s'.tables, q))
            && (EmailResult(cfg, s, body, env) == Returned(false) ==>
                  && EmailToSend(cfg, body).Some?
                  && EmailService.IsDispatched(s'.tables, EmailToSend(cfg, body).value.requestId))
  {
    match EmailToSend(cfg, body)
    case None =>
    case Some(ev) =>
      EmailAudit.AttemptKeeps(cfg.email, s, ev, env);
      var run := EmailService.SendEmail(cfg.email, s.tables, s.circuit, ev, env);
      if run.result == Returned(false) {
        EmailAudit.SuccessMeansDispatched(cfg.email, s, ev, env);
      }
      EmailAudit.DispatchedStays(cfg.email, s, ev, env);
  }

  lemma PushAfterKeeps(cfg: Config, s: PushAudit.Side, body: Body, env: PushService.Env)
    requires PushAudit.Inv(cfg.push, s) && PushAudit.InTime(s, env)
    ensures var s' := PushAfter(cfg, s, body, env);
            && PushAudit.Inv(cfg.push, s') && s'.clock <= env.end
            && s.log <= s'.log && |s'.log| <= |s.log| + 1 && s'.epoch == s.epoch
            && (forall q :: PushService.IsSent(s.table, q) ==> PushService.IsSent(s'.table, q))
            && (PushResult(cfg, s, body, env) == Returned(false) ==>
                  && PushToSend(cfg, body).Some?
                  && PushService.IsSent(s'.table, PushToSend(cfg, body).value.requestId))
  {
    match PushToSend(cfg, body)
    case None =>
    case Some(ev) =>
      PushAudit.AttemptKeeps(cfg.push, s, ev.notification, ev.requestId, env);
      var run := PushService.SendPush(cfg.push, s.table, s.circuit, ev.notification, ev.requestId, env);
      if run.result == Returned(false) {
        PushAudit.SuccessMeansSent(cfg.push, s.table, s.circuit, ev.notification, ev.requestId, env);
      }
      PushAudit.SendWritesItsRow(cfg.push, s.table, s.circuit, ev.notification, ev.requestId, env);
  }

  // What was sent stays sent.
  ghost predicate StaySent(s: State, s': State) {
    && (forall q :: EmailService.IsDispatched(s.email.tables, q) ==> EmailService.IsDispatched(s'.email.tables, q))
    && (forall q :: PushService.IsSent(s.push.table, q) ==> PushService.IsSent(s'.push.table, q))
  }

  lemma AckedStaysOk(cfg: Config, s: State, s': State)
    requires StaySent(s, s') && forall m :: m in s.broker.acked ==> AckedOk(cfg, s, m)
    ensures forall m :: m in s.broker.acked ==> AckedOk(cfg, s', m)
  {
    forall m | m in s.broker.acked
      ensures AckedOk(cfg, s', m)
    {
      assert AckedOk(cfg, s, m);
    }
  }

  lemma SettleAcks(p: Policy, b: Queues, c: Channel, err: bool, park: Park, now: Time)
    requires b.Of(c).unacked != []
    ensures Settle(p, b, c, err, park, now).acked
            == if err then b.acked else b.acked + [Tried(b.Of(c).unacked[0])]
  {
  }

  lemma AckedAfterSettling(cfg: Config, s: State, s': State, c: Channel, err: bool, park: Park)
    requires StaySent(s, s') && forall m :: m in s.broker.acked ==> AckedOk(cfg, s, m)
    requires s.broker.Of(c).unacked != []
    requires s'.broker.acked == Settle(cfg.policy, s.broker, c, err, park, s.now).acked
    requires !err ==> AckedOk(cfg, s', s.broker.Of(c).unacked[0])
    ensures forall m :: m in s'.broker.acked ==> AckedOk(cfg, s', m)
  {
    AckedStaysOk(cfg, s, s');
    SettleAcks(cfg.policy, s.broker, c, err, park, s.now);
    assert !err ==> AckedOk(cfg, s', Tried(s.broker.Of(c).unacked[0]));
  }

  lemma SettledKeeps(cfg: Config, s: State, s': State, c: Channel, err: bool, park: Park)
    requires Inv(cfg, s) && s'.now == s.now && StaySent(s, s')
    requires s.broker.Of(c).unacked != []
    requires s'.broker == Settle(cfg.policy, s.broker, c, err, park, s.now)
    requires EmailAudit.Inv(cfg.email, s'.email) && s'.email.clock <= s'.now
    requires PushAudit.Inv(cfg.push, s'.push) && s'.push.clock <= s'.now
    requires !err ==> AckedOk(cfg, s', s.broker.Of(c).unacked[0])
    ensures Inv(cfg, s')
  {
    BrokerInvariant.SettleKeeps(cfg.policy, s.broker, c, err, park, s.now);
    AckedAfterSettling(cfg, s, s', c, err, park);
  }

  lemma HandleEmailKeeps(cfg: Config, s: State, env: EmailService.Env, park: Park)
    requires Inv(cfg, s) && Enabled(cfg, s, HandleEmail(env, park))
    ensures Inv(cfg, Next(cfg, s, HandleEmail(env, park)))
  {
    var m := s.broker.email.unacked[0];
    assert BrokerInvariant.UnackedOk(cfg.policy, EmailChannel, m, s.now);
    EmailAfterKeeps(cfg, s.email, m.body, env);
    var err := EmailResult(cfg, s.email, m.body, env).err;
    SettledKeeps(cfg, s, Next(cfg, s, HandleEmail(env, park)), EmailChannel, err, park);
  }

  lemma HandlePushKeeps(cfg: Config, s: State, env: PushService.Env, park: Park)
    requires Inv(cfg, s) && Enabled(cfg, s, HandlePush(env, park))
    ensures Inv(cfg, Next(cfg, s, HandlePush(env, park)))
  {
    var m := s.broker.push.unacked[0];
    assert BrokerInvariant.UnackedOk(cfg.policy, PushChannel, m, s.now);
    PushAfterKeeps(cfg, s.push, m.body, env);
    var err := PushResult(cfg, s.push, m.body, env).err;
    SettledKeeps(cfg, s, Next(cfg, s, HandlePush(env, park)), PushChannel, err, park);
  }

  lemma EmailCutKeeps(cfg: Config, s: State, cut: Cut<EmailService.Env>)
    requires EmailAudit.Inv(cfg.email, s.email) && s.email.clock <= s.now && EmailMayBeCut(cfg, s, cut)
    ensures var side := EmailAfterCut(cfg, s, cut);
            && EmailAudit.Inv(cfg.email, side) && side.clock <= s.now
            && forall q :: EmailService.IsDispatched(s.email.tables, q) ==> EmailService.IsDispatched(side.tables, q)
  {
    if cut.Idle? {
      EmailAudit.RestartKeeps(cfg.email, s.email);
    } else {
      var body := s.broker.email.unacked[0].body;
      EmailAfterKeeps(cfg, s.email, body, cut.env);
      EmailAudit.RestartKeeps(cfg.email, EmailAfter(cfg, s.email, body, cut.env));
    }
  }

  lemma PushCutKeeps(cfg: Config, s: State, cut: Cut<PushService.Env>)
    requires PushAudit.Inv(cfg.push, s.push) && s.push.clock <= s.now && PushMayBeCut(cfg, s, cut)
    ensures var side := PushAfterCut(cfg, s, cut);
            && PushAudit.Inv(cfg.push, side) && side.clock <= s.now
            && forall q :: PushService.IsSent(s.push.table, q) ==> PushService.IsSent(side.table, q)
  {
    if cut.Idle? {
      PushAudit.RestartKeeps(cfg.push, s.push);
    } else {
      var body := s.broker.push.unacked[0].body;
      PushAfterKeeps(cfg, s.push, body, cut.env);
      PushAudit.RestartKeeps(cfg.push, PushAfter(cfg, s.push, body, cut.env));
    }
  }

  lemma RequeuedKeeps(cfg: Config, s: State, s': State, email: Broker.Interruption, push: Broker.Interruption)
    requires Inv(cfg, s) && s'.now == s.now && StaySent(s, s')
    requires s'.broker == Requeue(cfg.policy, Requeue(cfg.policy, s.broker, EmailChannel, email), PushChannel, push)
    requires EmailAudit.Inv(cfg.email, s'.email) && s'.email.clock <= s'.now
    requires PushAudit.Inv(cfg.push, s'.push) && s'.push.clock <= s'.now
    ensures Inv(cfg, s')
  {
    BothRequeued(cfg.policy, s.broker, email, push, s.now);
    AckedStaysOk(cfg, s, s');
  }

  lemma BothRequeued(p: Policy, b: Queues, email: Broker.Interruption, push: Broker.Interruption, now: Time)
    requires BrokerInvariant.Inv(p, b, now)
    ensures var b' := Requeue(p, Requeue(p, b, EmailChannel, email), PushChannel, push);
            BrokerInvariant.Inv(p, b', now) && b'.acked == b.acked
  {
    BrokerInvariant.RequeueKeeps(p, b, EmailChannel, email, now);
    BrokerInvariant.RequeueKeeps(p, Requeue(p, b, EmailChannel, email), PushChannel, push, now);
  }

  lemma CrashKeeps(cfg: Config, s: State, emailCut: Cut<EmailService.Env>, pushCut: Cut<PushService.Env>)
    requires Inv(cfg, s) && Enabled(cfg, s, Crash(emailCut, pushCut))
    ensures Inv(cfg, Next(cfg, s, Crash(emailCut, pushCut)))
  {
    EmailCutKeeps(cfg, s, emailCut);
    PushCutKeeps(cfg, s, pushCut);
    RequeuedKeeps(cfg, s, Next(cfg, s, Crash(emailCut, pushCut)), Interruption(emailCut), Interruption(pushCut));
  }

  lemma BrokerStepKeeps(cfg: Config, s: State, b: Queues, now: Time)
    requires Inv(cfg, s) && s.now <= now && BrokerInvariant.Inv(cfg.policy, b, now) && b.acked == s.broker.acked
    ensures Inv(cfg, s.(broker := b, now := now))
  {
    AckedStaysOk(cfg, s, s.(broker := b, now := now));
  }

  lemma QuietBrokerKeeps(cfg: Config, s: State, a: Action)
    requires BrokerInvariant.Inv(cfg.policy, s.broker, s.now) && Enabled(cfg, s, a)
    requires a.Tick? || a.Publish? || a.Deliver? || a.Expire?
    ensures var s' := Next(cfg, s, a);
            && s' == s.(broker := s'.broker, now := s'.now) && s.now <= s'.now
            && BrokerInvariant.Inv(cfg.policy, s'.broker, s'.now) && s'.broker.acked == s.broker.acked
  {
    match a {
      case Tick(later) => BrokerInvariant.TickKeeps(cfg.policy, s.broker, s.now, later);
      case Publish(key, body) => BrokerInvariant.PublishKeeps(cfg.policy, s.broker, key, body, s.now);
      case Deliver(c) => BrokerInvariant.DeliverKeeps(cfg.policy, s.broker, c, s.now);
      case Expire => BrokerInvariant.ExpireKeeps(cfg.policy, s.broker, s.now);
    }
  }

  lemma QuietStepKeeps(cfg: Config, s: State, a: Action)
    requires Inv(cfg, s) && Enabled(cfg, s, a)
    requires a.Tick? || a.Publish? || a.Deliver? || a.Expire?
    ensures Inv(cfg, Next(cfg, s, a))
  {
    QuietBrokerKeeps(cfg, s, a);
    BrokerStepKeeps(cfg, s, Next(cfg, s, a).broker, Next(cfg, s, a).now);
  }

  // Every step, including a crash at any point, keeps the invariant.
  lemma StepKeeps(cfg: Config, s: State, a: Action)
    requires Inv(cfg, s) && Enabled(cfg, s, a)
    ensures Inv(cfg, Next(cfg, s, a))
  {
    match a
    case HandleEmail(env, park) => HandleEmailKeeps(cfg, s, env, park);
    case HandlePush(env, park) => HandlePushKeeps(cfg, s, env, park);
    case Crash(emailCut, pushCut) => CrashKeeps(cfg, s, emailCut, pushCut);
    case _ => QuietStepKeeps(cfg, s, a);
  }

  lemma {:induction false} InvAlong(cfg: Config, states: seq<State>, actions: seq<Action>, i: nat)
    requires Behavior(cfg, states, actions) && i <= |actions|
    ensures Inv(cfg, states[i])
  {
    if i == 0 {
      InitialInv(cfg, states[0].now);
    } else {
      InvAlong(cfg, states, actions, i - 1);
      StepKeeps(cfg, states[i - 1], actions[i - 1]);
    }
  }
}
