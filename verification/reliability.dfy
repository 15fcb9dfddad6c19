// The promises of the relay over whole runs: in every state that any sequence
// of publishes, deliveries, attempts, expiries and crashes can reach.

module Reliability {
  import opened Common
  import opened Logs
  import opened Routing
  import opened Broker
  import opened Relay
  import opened Providers
  import Deaths
  import EmailRequest
  import EmailTables
  import EmailService
  import EmailAudit
  import PushService
  import PushAudit
  import BrokerInvariant
  import Drain
  import Outage
  import Provenance
  import Resilience

  // ---- No loss, no false success ----

  // A key that the retry exchange is bound under and some queue listens to.
  predicate Declared(p: Policy, key: RoutingKey) {
    key in p.retryKeys && (Bound(EmailChannel, key) || Bound(PushChannel, key))
  }

  // Every message published under a declared key is, with its key and body, in
  // exactly one place: live in one queue, acknowledged, or shelved. The row of
  // what is acknowledged says that it was sent. Once declared the parked queue
  // holds one copy of everything shelved and one of every stray, a published
  // message that left a copy there when its park reported an error or a crash
  // came before its acknowledgement, and nothing else.
  lemma NothingIsLostAndNoSuccessIsFalse(cfg: Config, states: seq<State>, actions: seq<Action>, i: nat)
    requires Behavior(cfg, states, actions) && i <= |actions|
    ensures var s := states[i];
            && (forall k :: 0 <= k < |s.broker.published| && Declared(cfg.policy, s.broker.published[k].key) ==>
                  var x := s.broker.published[k];
                  CopiesLive(s.broker, x) + Copies(s.broker.acked, x) + Copies(s.broker.shelved, x) == 1)
            && (forall m :: m in s.broker.acked ==> AckedOk(cfg, s, m))
            && multiset(s.broker.parked) ==
               (if cfg.policy.parkedDeclared then BrokerInvariant.Bodies(s.broker.shelved) else multiset{})
               + BrokerInvariant.Bodies(s.broker.strays)
            && (forall m :: m in s.broker.strays ==> IdentOf(m) in s.broker.published)
  {
    InvAlong(cfg, states, actions, i);
    var s := states[i];
    forall k | 0 <= k < |s.broker.published| && Declared(cfg.policy, s.broker.published[k].key)
      ensures var x := s.broker.published[k];
              CopiesLive(s.broker, x) + Copies(s.broker.acked, x) + Copies(s.broker.shelved, x) == 1
    {
      BrokerInvariant.DeclaredIsNeverLost(cfg.policy, s.broker, s.now, k);
    }
  }

  // In the application's topology this covers exactly what is published under
  // its two keys, and each of them only ever is in its own channel's queue.
  lemma ApplicationMessagesAreKept(cfg: Config, states: seq<State>, actions: seq<Action>, i: nat, k: nat)
    requires Behavior(cfg, states, actions) && i <= |actions| && k < |states[i].broker.published|
    requires cfg.policy.retryKeys == KeySet([EMAIL_KEY, PUSH_KEY])
    ensures var b, x := states[i].broker, states[i].broker.published[k];
            && (Declared(cfg.policy, x.key) <==> x.key == EMAIL_KEY || x.key == PUSH_KEY)
            && (x.key == EMAIL_KEY ==>
                  CopiesQueued(b.email, x) + CopiesWaiting(b.retry, x)
                  + Copies(b.acked, x) + Copies(b.shelved, x) == 1)
            && (x.key == PUSH_KEY ==>
                  CopiesQueued(b.push, x) + CopiesWaiting(b.retry, x)
                  + Copies(b.acked, x) + Copies(b.shelved, x) == 1)
  {
    ApplicationTopology(cfg.policy.retryKeys);
    InvAlong(cfg, states, actions, i);
    KeptInItsQueue(cfg.policy, states[i].broker, states[i].now, k);
  }

  lemma KeptInItsQueue(p: Policy, b: Queues, now: Time, k: nat)
    requires BrokerInvariant.Inv(p, b, now) && k < |b.published|
    ensures var x := b.published[k];
            forall c :: Bound(c, x.key) && x.key in p.retryKeys ==>
              CopiesQueued(b.Of(c), x) + CopiesWaiting(b.retry, x) + Copies(b.acked, x) + Copies(b.shelved, x) == 1
  {
    var x := b.published[k];
    forall c | Bound(c, x.key) && x.key in p.retryKeys
      ensures CopiesQueued(b.Of(c), x) + CopiesWaiting(b.retry, x) + Copies(b.acked, x) + Copies(b.shelved, x) == 1
    {
      BrokerInvariant.DeclaredIsNeverLost(p, b, now, k);
      NotInTheOtherQueue(p, b, now, c, x);
      assert b.Of(EmailChannel) == b.email && b.Of(PushChannel) == b.push;
    }
  }

  lemma NotInTheOtherQueue(p: Policy, b: Queues, now: Time, c: Channel, x: Ident)
    requires BrokerInvariant.PlacesOk(p, b, now) && Bound(c, x.key)
    ensures forall c' :: c' != c ==> CopiesQueued(b.Of(c'), x) == 0
  {
    var c' := if c.EmailChannel? then PushChannel else EmailChannel;
    forall m | m in b.Of(c').ready
      ensures IdentOf(m) != x
    {
      assert BrokerInvariant.ReadyOk(p, c', m, now);
      BoundKeys(c, m.key);
    }
    forall m | m in b.Of(c').unacked
      ensures IdentOf(m) != x
    {
      assert BrokerInvariant.UnackedOk(p, c', m, now);
      BoundKeys(c, m.key);
    }
    BrokerInvariant.AbsentMeansNoCopies(b.Of(c').ready, x);
    BrokerInvariant.AbsentMeansNoCopies(b.Of(c').unacked, x);
  }

  lemma StepOfRunKeepsPublished(cfg: Config, states: seq<State>, actions: seq<Action>, i: nat)
    requires Behavior(cfg, states, actions) && i < |actions|
    ensures states[i].broker.published <= states[i + 1].broker.published
  {
    Provenance.StepKeepsPublished(cfg, states[i], actions[i]);
  }

  // What was published stays on the books for the rest of the run, so the
  // theorem above follows a message for ever.
  lemma PublishedStays(cfg: Config, states: seq<State>, actions: seq<Action>, i: nat, j: nat)
    requires Behavior(cfg, states, actions) && i <= j <= |actions|
    ensures states[i].broker.published <= states[j].broker.published
  {
    forall k | i <= k < j
      ensures states[k].broker.published <= states[k + 1].broker.published
    {
      StepOfRunKeepsPublished(cfg, states, actions, k);
    }
    PrefixAlong(seq(|states|, k requires 0 <= k < |states| => states[k].broker.published), i, j);
  }

  // Which messages are lost: all of those that no queue is bound for, none of
  // those under declared keys, and of the others only those that the retry
  // exchange had no queue for.
  lemma LostExactly(cfg: Config, states: seq<State>, actions: seq<Action>, i: nat, k: nat)
    requires Behavior(cfg, states, actions) && i <= |actions| && k < |states[i].broker.published|
    ensures var b, x := states[i].broker, states[i].broker.published[k];
            && (!Bound(EmailChannel, x.key) && !Bound(PushChannel, x.key) ==> Copies(b.lost, x) == 1)
            && (Declared(cfg.policy, x.key) ==> Copies(b.lost, x) == 0)
    ensures forall m :: m in states[i].broker.lost ==> !Declared(cfg.policy, m.key)
  {
    InvAlong(cfg, states, actions, i);
    LostExactlyNow(cfg.policy, states[i].broker, states[i].now, k);
  }

  lemma LostExactlyNow(p: Policy, b: Queues, now: Time, k: nat)
    requires BrokerInvariant.Inv(p, b, now) && k < |b.published|
    ensures var x := b.published[k];
            && (!Bound(EmailChannel, x.key) && !Bound(PushChannel, x.key) ==> Copies(b.lost, x) == 1)
            && (Declared(p, x.key) ==> Copies(b.lost, x) == 0)
    ensures forall m :: m in b.lost ==> !Declared(p, m.key)
  {
    var x := b.published[k];
    assert forall m :: m in b.lost ==> BrokerInvariant.LostOk(p, m);
    if !Bound(EmailChannel, x.key) && !Bound(PushChannel, x.key) {
      BrokerInvariant.UnboundIsLost(p, b, now, k);
    } else if Declared(p, x.key) {
      BrokerInvariant.AbsentMeansNoCopies(b.lost, x);
    }
  }

  // ---- Outages ----

  lemma {:induction false} MemberWhenCopied(ms: seq<Msg>, x: Ident) returns (m: Msg)
    requires Copies(ms, x) >= 1
    ensures m in ms && IdentOf(m) == x
  {
    if IdentOf(ms[0]) == x {
      m := ms[0];
    } else {
      m := MemberWhenCopied(ms[1..], x);
    }
  }

  lemma DrainedHasNoCopies(b: Queues, x: Ident)
    requires Drain.Drained(b)
    ensures CopiesLive(b, x) == 0
  {
  }

  // A message under a declared key whose provider recovers in time, as
  // Outage.NeverParked has it, has been acknowledged by the time the queues are
  // empty: the row of its request says that it was sent, and its own content
  // was if request ids are unique.
  lemma DeliveredOnceDrained(
    cfg: Config, states: seq<State>, actions: seq<Action>, i: nat, c: Channel, id: nat, r: Time) returns (m: Msg)
    requires Behavior(cfg, states, actions) && i <= |actions| && Outage.Recovers(cfg, states, actions, c, id, r)
    requires id < |states[i].broker.published| && Drain.Drained(states[i].broker)
    requires Bound(c, states[i].broker.published[id].key) && states[i].broker.published[id].key in cfg.policy.retryKeys
    ensures m in states[i].broker.acked && IdentOf(m) == states[i].broker.published[id]
    ensures AckedOk(cfg, states[i], m)
    ensures Provenance.IdsAreUnique(cfg, states[i].broker.published) ==>
      || Provenance.EmailSent(cfg, states[i], states[i].broker.published[id])
      || Provenance.PushSent(cfg, states[i], states[i].broker.published[id])
  {
    InvAlong(cfg, states, actions, i);
    Outage.NeverParked(cfg, states, actions, i, c, id, r);
    m := AckedUnlessShelved(cfg, states[i], c, id);
    if Provenance.IdsAreUnique(cfg, states[i].broker.published) {
      Provenance.AcknowledgedWasSent(cfg, states, actions, i, m);
    }
  }

  lemma AckedUnlessShelved(cfg: Config, s: State, c: Channel, id: nat) returns (m: Msg)
    requires Inv(cfg, s) && id < |s.broker.published| && Drain.Drained(s.broker)
    requires Bound(c, s.broker.published[id].key) && s.broker.published[id].key in cfg.policy.retryKeys
    requires !Outage.Shelved(s.broker, c, id)
    ensures m in s.broker.acked && IdentOf(m) == s.broker.published[id] && AckedOk(cfg, s, m)
  {
    var x := s.broker.published[id];
    BrokerInvariant.DeclaredIsNeverLost(cfg.policy, s.broker, s.now, id);
    DrainedHasNoCopies(s.broker, x);
    if Copies(s.broker.shelved, x) >= 1 {
      m := MemberWhenCopied(s.broker.shelved, x);
      assert x.id == id;
    } else {
      m := MemberWhenCopied(s.broker.acked, x);
    }
  }

  // ---- Real sends ----

  // In every reachable state the real sends of a request are exactly the one
  // that its row records plus the attempts whose success went unrecorded; so
  // there is at most one real send when no step after a send fails.
  lemma RealSendsAreAccountedFor(cfg: Config, states: seq<State>, actions: seq<Action>, i: nat, requestId: string)
    requires Behavior(cfg, states, actions) && i <= |actions|
    ensures var s := states[i].email;
            && EmailAudit.Acceptances(s.log, requestId) ==
               (if EmailService.IsDispatched(s.tables, requestId) then 1 else 0) + EmailAudit.Orphans(s.log, requestId)
            && (EmailAudit.Orphans(s.log, requestId) == 0 ==> EmailAudit.Acceptances(s.log, requestId) <= 1)
    ensures var s := states[i].push;
            && PushAudit.Answers(s.log, requestId) ==
               (if PushService.IsSent(s.table, requestId) then 1 else 0)
               + PushAudit.UnrecordedAnswers(s.log, requestId)
            && (PushAudit.UnrecordedAnswers(s.log, requestId) == 0 ==> PushAudit.Answers(s.log, requestId) <= 1)
  {
    InvAlong(cfg, states, actions, i);
    EmailAudit.DuplicateSendAccounting(cfg.email, states[i].email, requestId);
    PushAudit.DuplicateSendAccounting(cfg.push, states[i].push, requestId);
  }

  // ---- What is final stays final ----

  // From s to s': rows keep the content they were first stored with, and
  // dispatched and sent rows do not change at all.
  ghost predicate KeepsHistory(s: State, s': State) {
    && (forall q :: q in s.email.tables.requests ==>
          && q in s'.email.tables.requests
          && s'.email.tables.requests[q].email == s.email.tables.requests[q].email
          && s'.email.tables.requests[q].service == s.email.tables.requests[q].service
          && (EmailService.IsDispatched(s.email.tables, q) ==>
                s'.email.tables.requests[q] == s.email.tables.requests[q]))
    && (forall q :: PushService.IsSent(s.push.table, q) ==>
          q in s'.push.table && s'.push.table[q] == s.push.table[q])
  }

  lemma EmailKeepsHistory(cfg: Config, s: EmailAudit.Side, body: Body, env: EmailService.Env)
    requires EmailAudit.Inv(cfg.email, s)
    ensures var after := EmailAfter(cfg, s, body, env).tables;
            forall q :: q in s.tables.requests ==>
              && q in after.requests
              && after.requests[q].email == s.tables.requests[q].email
              && after.requests[q].service == s.tables.requests[q].service
              && (EmailService.IsDispatched(s.tables, q) ==> after.requests[q] == s.tables.requests[q])
  {
    if EmailToSend(cfg, body).Some? {
      forall q | q in s.tables.requests
        ensures var after := EmailAfter(cfg, s, body, env).tables;
                && q in after.requests
                && after.requests[q].email == s.tables.requests[q].email
                && after.requests[q].service == s.tables.requests[q].service
                && (EmailService.IsDispatched(s.tables, q) ==> after.requests[q] == s.tables.requests[q])
      {
        EmailAudit.RowsAreAbsorbing(cfg.email, s, EmailToSend(cfg, body).value, env, q);
      }
    }
  }

  lemma PushKeepsHistory(cfg: Config, s: PushAudit.Side, body: Body, env: PushService.Env)
    ensures var after := PushAfter(cfg, s, body, env).table;
            forall q :: PushService.IsSent(s.table, q) ==> q in after && after[q] == s.table[q]
  {
    if PushToSend(cfg, body).Some? {
      var ev := PushToSend(cfg, body).value;
      forall q | PushService.IsSent(s.table, q)
        ensures var after := PushAfter(cfg, s, body, env).table;
                q in after && after[q] == s.table[q]
      {
        PushAudit.SentIsFinal(cfg.push, s.table, s.circuit, ev.notification, ev.requestId, env, q);
      }
    }
  }

  lemma CrashKeepsHistory(
    cfg: Config, s: State, emailCut: Cut<EmailService.Env>, pushCut: Cut<PushService.Env>)
    requires Inv(cfg, s) && EmailMayBeCut(cfg, s, emailCut) && PushMayBeCut(cfg, s, pushCut)
    ensures KeepsHistory(s, s.(email := EmailAfterCut(cfg, s, emailCut), push := PushAfterCut(cfg, s, pushCut)))
  {
    if !emailCut.Idle? {
      EmailKeepsHistory(cfg, s.email, s.broker.email.unacked[0].body, emailCut.env);
    }
    if !pushCut.Idle? {
      PushKeepsHistory(cfg, s.push, s.broker.push.unacked[0].body, pushCut.env);
    }
  }

  lemma QuietStepLeavesSides(cfg: Config, s: State, a: Action)
    requires Enabled(cfg, s, a) && !a.HandleEmail? && !a.HandlePush? && !a.Crash?
    ensures Next(cfg, s, a).email == s.email && Next(cfg, s, a).push == s.push
  {
  }

  lemma AttemptKeepsHistory(cfg: Config, s: State, a: Action)
    requires Inv(cfg, s) && Enabled(cfg, s, a) && (a.HandleEmail? || a.HandlePush?)
    ensures KeepsHistory(s, Next(cfg, s, a))
  {
    if a.HandleEmail? {
      EmailKeepsHistory(cfg, s.email, s.broker.email.unacked[0].body, a.emailEnv);
    } else {
      PushKeepsHistory(cfg, s.push, s.broker.push.unacked[0].body, a.pushEnv);
    }
  }

  lemma StepKeepsHistory(cfg: Config, s: State, a: Action)
    requires Inv(cfg, s) && Enabled(cfg, s, a)
    ensures KeepsHistory(s, Next(cfg, s, a))
  {
    match a
    case HandleEmail(_, _) => AttemptKeepsHistory(cfg, s, a);
    case HandlePush(_, _) => AttemptKeepsHistory(cfg, s, a);
    case Crash(emailCut, pushCut) => CrashKeepsHistory(cfg, s, emailCut, pushCut);
    case _ => QuietStepLeavesSides(cfg, s, a);
  }

  lemma StepOfRunKeepsHistory(cfg: Config, states: seq<State>, actions: seq<Action>, i: nat)
    requires Behavior(cfg, states, actions) && i < |actions|
    ensures KeepsHistory(states[i], states[i + 1])
  {
    InvAlong(cfg, states, actions, i);
    StepKeepsHistory(cfg, states[i], actions[i]);
  }

  lemma HistoryChains(s: State, s': State, s'': State)
    requires KeepsHistory(s, s') && KeepsHistory(s', s'')
    ensures KeepsHistory(s, s'')
  {
  }

  lemma {:induction false} FinalStaysFinal(cfg: Config, states: seq<State>, actions: seq<Action>, i: nat, j: nat)
    requires Behavior(cfg, states, actions) && i <= j <= |actions|
    ensures KeepsHistory(states[i], states[j])
  {
    if i < j {
      FinalStaysFinal(cfg, states, actions, i, j - 1);
      StepOfRunKeepsHistory(cfg, states, actions, j - 1);
      HistoryChains(states[i], states[j - 1], states[j]);
    }
  }

  // ---- Handling ----

  // In every run a handled message adds an attempt of its own exactly if it
  // decodes, comes from the namespace and has the type of its channel; otherwise
  // nothing is stored or sent and it is not acknowledged.
  lemma HandledExactly(cfg: Config, states: seq<State>, actions: seq<Action>, i: nat) returns (result: SendResult)
    requires Behavior(cfg, states, actions) && i < |actions|
    ensures Handles(cfg, states[i], actions[i], states[i + 1], result)
  {
    result := StepHandles(cfg, states[i], actions[i]);
  }

  // The result of the handler that a step runs decides the acknowledgement.
  ghost predicate Handles(cfg: Config, s: State, a: Action, s': State, result: SendResult) {
    && (a.HandleEmail? ==>
          && s.broker.email.unacked != []
          && EmailHandled(cfg, s.email, s'.email, s.broker.email.unacked[0].body, result)
          && (|s'.broker.acked| == |s.broker.acked| + 1 <==> result == Returned(false)))
    && (a.HandlePush? ==>
          && s.broker.push.unacked != []
          && PushHandled(cfg, s.push, s'.push, s.broker.push.unacked[0].body, result)
          && (|s'.broker.acked| == |s.broker.acked| + 1 <==> result == Returned(false)))
  }

  lemma StepHandles(cfg: Config, s: State, a: Action) returns (result: SendResult)
    requires Enabled(cfg, s, a)
    ensures Handles(cfg, s, a, Next(cfg, s, a), result)
  {
    result := Returned(true);
    if a.HandleEmail? {
      var body := s.broker.email.unacked[0].body;
      result := EmailResult(cfg, s.email, body, a.emailEnv);
      EmailIsHandled(cfg, s.email, body, a.emailEnv);
      SettleAcks(cfg.policy, s.broker, EmailChannel, result.err, a.park, s.now);
    } else if a.HandlePush? {
      var body := s.broker.push.unacked[0].body;
      result := PushResult(cfg, s.push, body, a.pushEnv);
      PushIsHandled(cfg, s.push, body, a.pushEnv);
      SettleAcks(cfg.policy, s.broker, PushChannel, result.err, a.park, s.now);
    }
  }

  // In every reachable state a complete notification that was not sent before,
  // on a breaker that admits it and a database that works, is sent and
  // acknowledged when OneSignal gives a readable answer.
  lemma ReadableAnswerSucceeds(cfg: Config, states: seq<State>, actions: seq<Action>, i: nat, ev: PushEvent)
    requires Behavior(cfg, states, actions) && i < |actions| && actions[i].HandlePush?
    requires cfg.decodePush(states[i].broker.push.unacked[0].body) == Some(ev)
    requires "io.opencrafts." <= ev.serviceId && ev.eventType == "push.send"
    requires !PushService.IsSent(states[i].push.table, ev.requestId)
    requires PushAudit.Complete(cfg.push.codec, ev.notification, actions[i].pushEnv.validatedAt)
    requires Resilience.Admits(cfg.push.breaker, states[i].push.circuit, actions[i].pushEnv.start)
    requires PushAudit.Readable(cfg.push.codec, actions[i].pushEnv.reply)
    requires actions[i].pushEnv.lookup == Ok && actions[i].pushEnv.persist == PushService.Stored
    requires PushService.ContentStorable(cfg.push.codec, ev.notification)
    requires PushService.StorableJson(cfg.push.codec, Some(actions[i].pushEnv.reply.body))
    ensures PushService.IsSent(states[i + 1].push.table, ev.requestId)
    ensures |states[i + 1].broker.acked| == |states[i].broker.acked| + 1
  {
    ReadablePushSucceeds(cfg, states[i], actions[i], ev);
  }

  lemma ReadablePushSucceeds(cfg: Config, s: State, a: Action, ev: PushEvent)
    requires Enabled(cfg, s, a) && a.HandlePush?
    requires cfg.decodePush(s.broker.push.unacked[0].body) == Some(ev)
    requires "io.opencrafts." <= ev.serviceId && ev.eventType == "push.send"
    requires !PushService.IsSent(s.push.table, ev.requestId)
    requires PushAudit.Complete(cfg.push.codec, ev.notification, a.pushEnv.validatedAt)
    requires Resilience.Admits(cfg.push.breaker, s.push.circuit, a.pushEnv.start)
    requires PushAudit.Readable(cfg.push.codec, a.pushEnv.reply)
    requires a.pushEnv.lookup == Ok && a.pushEnv.persist == PushService.Stored
    requires PushService.ContentStorable(cfg.push.codec, ev.notification)
    requires PushService.StorableJson(cfg.push.codec, Some(a.pushEnv.reply.body))
    ensures PushService.IsSent(Next(cfg, s, a).push.table, ev.requestId)
    ensures |Next(cfg, s, a).broker.acked| == |s.broker.acked| + 1
  {
    var env := a.pushEnv;
    PushAudit.ReachesBreakerExactly(
      cfg.push, s.push.table, s.push.circuit, ev.notification, ev.requestId, env);
    PushAudit.RecordsExactly(cfg.push, s.push.table, s.push.circuit, ev.notification, ev.requestId, env);
    PushAudit.EndsExactly(cfg.push, s.push.table, s.push.circuit, ev.notification, ev.requestId, env);
    PushAudit.SuccessMeansSent(cfg.push, s.push.table, s.push.circuit, ev.notification, ev.requestId, env);
    SettleAcks(cfg.policy, s.broker, PushChannel, false, a.park, s.now);
  }

  // ---- Prefetching ----

  lemma StepKeepsPrefetch(cfg: Config, s: State, a: Action, c: Channel)
    requires Enabled(cfg, s, a)
    ensures |Next(cfg, s, a).broker.Of(c).unacked| <= Max(|s.broker.Of(c).unacked|, cfg.policy.prefetch)
  {
    match a
    case HandleEmail(env, park) =>
      SettleHoldsNoMore(cfg.policy, s.broker, EmailChannel,
                        EmailResult(cfg, s.email, s.broker.email.unacked[0].body, env).err, park, s.now, c);
    case HandlePush(env, park) =>
      SettleHoldsNoMore(cfg.policy, s.broker, PushChannel,
                        PushResult(cfg, s.push, s.broker.push.unacked[0].body, env).err, park, s.now, c);
    case _ =>
  }

  lemma SettleHoldsNoMore(p: Policy, b: Queues, c: Channel, err: bool, park: Park, now: Time, c': Channel)
    requires b.Of(c).unacked != []
    ensures |Settle(p, b, c, err, park, now).Of(c').unacked| <= |b.Of(c').unacked|
  {
  }

  lemma NextKeepsPrefetch(cfg: Config, states: seq<State>, actions: seq<Action>, i: nat, c: Channel)
    requires Behavior(cfg, states, actions) && i < |actions|
    requires |states[i].broker.Of(c).unacked| <= cfg.policy.prefetch
    ensures |states[i + 1].broker.Of(c).unacked| <= cfg.policy.prefetch
  {
    StepKeepsPrefetch(cfg, states[i], actions[i], c);
  }

  // No consumer ever holds more deliveries than its prefetch count.
  lemma {:induction false} PrefetchIsRespected(
    cfg: Config, states: seq<State>, actions: seq<Action>, i: nat, c: Channel)
    requires Behavior(cfg, states, actions) && i <= |actions|
    ensures |states[i].broker.Of(c).unacked| <= cfg.policy.prefetch
  {
    if i > 0 {
      PrefetchIsRespected(cfg, states, actions, i - 1, c);
      NextKeepsPrefetch(cfg, states, actions, i - 1, c);
    }
  }

  // ---- Audit log, calls and registry ----

  // In every reachable state the dispatch rows of a request tell exactly its
  // committed attempts in order, only the last of them can be "sent", and the
  // request's status is the one that the last row implies; the row holds the
  // service and the content of the first of them.
  lemma AuditLogRefinesAttempts(cfg: Config, states: seq<State>, actions: seq<Action>, i: nat, requestId: string)
    requires Behavior(cfg, states, actions) && i <= |actions| && requestId in states[i].email.tables.requests
    ensures EmailAudit.Refined(states[i].email, requestId)
  {
    InvAlong(cfg, states, actions, i);
    EmailAudit.LogRefinesAttempts(cfg.email, states[i].email, requestId);
  }

  // In every reachable state a notification row holds what the latest attempt
  // for its request stored, and nothing was stored after "sent"; such an
  // attempt called OneSignal without an error.
  lemma NotificationRowIsItsLatestWrite(
    cfg: Config, states: seq<State>, actions: seq<Action>, i: nat, requestId: string)
    requires Behavior(cfg, states, actions) && i <= |actions|
    ensures var t, rows := states[i].push.table, PushAudit.Writes(states[i].push.log, requestId);
            && (requestId in t <==> rows != [])
            && (rows != [] ==> t[requestId] == rows[|rows| - 1])
            && (forall k :: 0 <= k < |rows| && rows[k].status.Sent? ==> k == |rows| - 1)
            && (PushService.IsSent(t, requestId) ==> PushAudit.Answers(states[i].push.log, requestId) >= 1)
  {
    InvAlong(cfg, states, actions, i);
    PushAudit.RowIsLatestWrite(cfg.push, states[i].push, requestId);
    PushAudit.DuplicateSendAccounting(cfg.push, states[i].push, requestId);
  }

  // Every attempt that ever called OneSignal had a valid notification whose
  // send_after had not passed, and every row that was ever stored tells what
  // its attempt came to. A "sent" row carries an id unless the event brought
  // none and the answer's was empty.
  lemma EveryPushAttemptIsToldTruly(cfg: Config, states: seq<State>, actions: seq<Action>, i: nat, k: nat)
    requires Behavior(cfg, states, actions) && i <= |actions| && k < |states[i].push.log|
    ensures var t := states[i].push.log[k];
            && (t.verdict.Called? ==> PushAudit.Complete(cfg.push.codec, t.notification, t.validatedAt))
            && (t.stored.Some? ==> PushAudit.Tells(cfg.push, t, t.stored.value)
                                   && PushService.Storable(cfg.push.codec, t.stored.value))
            && (t.stored.Some? && t.stored.value.status.Sent? && t.notification.onesignalId.None? ==>
                  && t.verdict.Called? && PushAudit.Readable(cfg.push.codec, t.verdict.reply)
                  && (t.stored.value.notification.onesignalId.Some? <==>
                        PushAudit.IdIn(cfg.push.codec, t.verdict.reply) != ""))
  {
    InvAlong(cfg, states, actions, i);
    var t := states[i].push.log[k];
    assert PushAudit.TraceOk(cfg.push, t);
    PushAudit.ValidIfComplete(cfg.push.codec, t.notification, t.validatedAt);
    if t.stored.Some? && t.stored.value.status.Sent? && t.notification.onesignalId.None? {
      PushAudit.SentRowHasIdExactly(cfg.push, t);
    }
  }

  // Every call that ever reached Resend carried an allowed sender, a
  // recipient, a non-blank subject, the event's attachments, and its template or
  // its body fields, of which the event had one kind. It had something to read
  // exactly if the event had a template or a body that is not empty.
  lemma EveryResendCallIsSendable(cfg: Config, states: seq<State>, actions: seq<Action>, i: nat, k: nat)
    requires Behavior(cfg, states, actions) && i <= |actions| && k < |states[i].email.log|
    requires states[i].email.log[k].verdict.Called?
    ensures var t := states[i].email.log[k];
            && EmailRequest.Sendable(cfg.email.codec, t.verdict.request)
            && EmailRequest.Represents(cfg.email.codec, t.verdict.request, t.email)
            && (EmailRequest.HasContent(t.verdict.request) <==>
                  || EmailRequest.NamesTemplate(t.email)
                  || t.email.bodyHtml !in {None, Some("")} || t.email.bodyText !in {None, Some("")})
  {
    InvAlong(cfg, states, actions, i);
    assert EmailAudit.TraceOk(cfg.email, states[i].email.log[k]);
  }

  // Over all runs every service is a seeded one or named by its own id in the
  // namespace, so no auto-registration is ever refused, and every request
  // refers to a registered service.
  lemma RegistryHolds(cfg: Config, states: seq<State>, actions: seq<Action>, i: nat, serviceId: string)
    requires Behavior(cfg, states, actions) && i <= |actions| && EmailTables.NAMESPACE <= serviceId
    ensures var t := states[i].email.tables;
            && EmailTables.RegistryOk(t.services)
            && EmailTables.ServiceUpserted(t, serviceId, serviceId).Some?
            && forall q :: q in t.requests ==> t.requests[q].service in t.services
  {
    InvAlong(cfg, states, actions, i);
    EmailTables.AutoRegistrationSucceeds(states[i].email.tables, serviceId);
  }

  // No two dispatch rows ever hold the same id of Resend.
  lemma ResendIdsStayUnique(cfg: Config, states: seq<State>, actions: seq<Action>, i: nat, j: nat, k: nat)
    requires Behavior(cfg, states, actions) && i <= |actions| && j < k < |states[i].email.tables.dispatches|
    ensures var rows := states[i].email.tables.dispatches;
            rows[j].resendId == None || rows[j].resendId != rows[k].resendId
  {
    InvAlong(cfg, states, actions, i);
  }

  // ---- Breakers ----

  // A breaker moves only with a call of its own provider or a new process:
  // invalid, duplicate and refused messages and the other channel leave it
  // alone.
  lemma OnlyOwnCallsMoveABreaker(cfg: Config, s: State, a: Action, c: Channel)
    requires Inv(cfg, s) && Enabled(cfg, s, a) && !a.Crash? && CallIn(cfg, s, a, c) == []
    ensures CircuitOf(Next(cfg, s, a), c) == CircuitOf(s, c)
  {
    var after := StepMovesBreaker(cfg, s, a, c);
  }

  // ---- Scheduled notifications ----

  // Once some attempt has found a send_after in the past, every later handling
  // of a notification with that send_after leaves OneSignal alone, and succeeds
  // only if its request was sent before: it can only be parked or acknowledged
  // as a duplicate.
  lemma PassedIsNeverSentLater(cfg: Config, s: State, env: PushService.Env, park: Park, k: nat)
    requires Inv(cfg, s) && Enabled(cfg, s, HandlePush(env, park)) && k < |s.push.log|
    requires PushService.Passed(s.push.log[k].notification, s.push.log[k].validatedAt)
    requires PushToSend(cfg, s.broker.push.unacked[0].body).Some?
    requires PushToSend(cfg, s.broker.push.unacked[0].body).value.notification.sendAfter
             == s.push.log[k].notification.sendAfter
    ensures CallIn(cfg, s, HandlePush(env, park), PushChannel) == []
    ensures PushResult(cfg, s.push, s.broker.push.unacked[0].body, env) == Returned(false) ==>
            PushService.IsSent(s.push.table, PushToSend(cfg, s.broker.push.unacked[0].body).value.requestId)
  {
    var ev := PushToSend(cfg, s.broker.push.unacked[0].body).value;
    PushAudit.PassedSucceedsOnlyIfSent(
      cfg.push, s.push.table, s.push.circuit, ev.notification, ev.requestId, env);
  }

  // ---- Retries ----

  // In every reachable state, wherever a message has got to, the handler has
  // seen it at most budget + 1 times, plus failed parks and crashes; a shelved
  // message exactly that often.
  lemma AttemptsAreBounded(cfg: Config, states: seq<State>, actions: seq<Action>, i: nat, m: Msg)
    requires Behavior(cfg, states, actions) && i <= |actions| && BrokerInvariant.Known(states[i].broker, m)
    ensures m.history.attempts <= cfg.policy.Budget() + 1 + m.history.parkFailures + m.history.crashes
    ensures m in states[i].broker.shelved ==>
      m.history.attempts == cfg.policy.Budget() + 1 + m.history.parkFailures + m.history.crashes
  {
    InvAlong(cfg, states, actions, i);
    BrokerInvariant.RetryBound(cfg.policy, states[i].broker, states[i].now, m);
  }

  // In every reachable state a message that is ready or being handled after k
  // rejections is there no earlier than k delays after its first delivery, and
  // its x-death header counts exactly those rejections.
  lemma RetriesAreCountedAndDelayed(
    cfg: Config, states: seq<State>, actions: seq<Action>, i: nat, c: Channel, m: Msg)
    requires Behavior(cfg, states, actions) && i <= |actions|
    requires m in states[i].broker.Of(c).ready + states[i].broker.Of(c).unacked && m.history.first.Some?
    ensures m.history.first.value + m.history.rejections * cfg.policy.Delay() <= states[i].now
    ensures Deaths.Rejections(m.headers) == m.history.rejections
  {
    InvAlong(cfg, states, actions, i);
    var s := states[i];
    assert m in s.broker.Of(c).ready ==> BrokerInvariant.ReadyOk(cfg.policy, c, m, s.now);
    assert m in s.broker.Of(c).unacked ==> BrokerInvariant.UnackedOk(cfg.policy, c, m, s.now);
  }

  lemma OnlyMessage(key: RoutingKey, body: Body)
    ensures var b := Broker.Publish(EMPTY, key, body);
            b.published == [Ident(0, key, body)] && b.acked == [] && Drain.Unhurt(b)
  {
  }

  // The relay with one message, just published.
  function WithMessage(now: Time, key: RoutingKey, body: Body): State {
    Initial(now).(broker := Broker.Publish(EMPTY, key, body))
  }

  lemma MessageIsPublished(cfg: Config, now: Time, key: RoutingKey, body: Body)
    ensures Next(cfg, Initial(now), Action.Publish(key, body)) == WithMessage(now, key, body)
    ensures Inv(cfg, WithMessage(now, key, body))
  {
    InitialInv(cfg, now);
    StepKeeps(cfg, Initial(now), Action.Publish(key, body));
  }

  // A stretch from there is a run from the start.
  lemma StartWith(cfg: Config, now: Time, key: RoutingKey, body: Body, states: seq<State>, actions: seq<Action>)
    requires Stretch(cfg, states, actions) && states[0] == WithMessage(now, key, body)
    requires forall k :: 0 <= k < |actions| ==> Drain.FailsAtOnce(actions[k])
    ensures var actions' := [Action.Publish(key, body)] + actions;
            && Behavior(cfg, [Initial(now)] + states, actions')
            && forall k :: 0 <= k < |actions'| ==> Drain.FailsAtOnce(actions'[k])
    ensures ([Initial(now)] + states)[|actions| + 1] == states[|actions|]
  {
  }

  lemma StaysAlone(now: Time, key: RoutingKey, body: Body, b: Queues)
    requires Drain.OnlyRetries(WithMessage(now, key, body).broker, b)
    ensures b.published == [Ident(0, key, body)] && b.acked == [] && Drain.Unhurt(b)
  {
    OnlyMessage(key, body);
  }

  // A run with one message, every attempt at which fails at once.
  lemma FailingRun(cfg: Config, now: Time, key: RoutingKey, body: Body)
    returns (states: seq<State>, actions: seq<Action>)
    requires cfg.policy.prefetch > 0
    ensures Behavior(cfg, states, actions)
    ensures forall k :: 0 <= k < |actions| ==> Drain.FailsAtOnce(actions[k])
    ensures var b := states[|actions|].broker;
            b.published == [Ident(0, key, body)] && b.acked == [] && Drain.Drained(b) && Drain.Unhurt(b)
  {
    MessageIsPublished(cfg, now, key, body);
    var s, a := Drain.QueuesDrain(cfg, WithMessage(now, key, body));
    StaysAlone(now, key, body, s[|a|].broker);
    StartWith(cfg, now, key, body, s, a);
    states, actions := [Initial(now)] + s, [Action.Publish(key, body)] + a;
  }

  // The bound is reached: a message under a declared key, every attempt at which
  // fails at once, is handled budget + 1 times and then parked.
  lemma BoundIsReached(cfg: Config, now: Time, key: RoutingKey, body: Body)
    returns (states: seq<State>, actions: seq<Action>, m: Msg)
    requires Declared(cfg.policy, key) && cfg.policy.prefetch > 0
    ensures Behavior(cfg, states, actions)
    ensures forall k :: 0 <= k < |actions| ==> Drain.FailsAtOnce(actions[k])
    ensures m in states[|actions|].broker.shelved && IdentOf(m) == Ident(0, key, body)
    ensures m.history.attempts == cfg.policy.Budget() + 1
  {
    states, actions := FailingRun(cfg, now, key, body);
    InvAlong(cfg, states, actions, |actions|);
    m := ShelvedInTheEnd(cfg, states[|actions|], key, body);
  }

  lemma ShelvedInTheEnd(cfg: Config, s: State, key: RoutingKey, body: Body) returns (m: Msg)
    requires Inv(cfg, s) && s.broker.published == [Ident(0, key, body)] && s.broker.acked == []
    requires Declared(cfg.policy, key) && Drain.Drained(s.broker) && Drain.Unhurt(s.broker)
    ensures m in s.broker.shelved && IdentOf(m) == Ident(0, key, body)
    ensures m.history.attempts == cfg.policy.Budget() + 1
  {
    BrokerInvariant.DeclaredIsNeverLost(cfg.policy, s.broker, s.now, 0);
    DrainedHasNoCopies(s.broker, Ident(0, key, body));
    m := MemberWhenCopied(s.broker.shelved, Ident(0, key, body));
    assert BrokerInvariant.Known(s.broker, m);
    BrokerInvariant.RetryBound(cfg.policy, s.broker, s.now, m);
  }
}
