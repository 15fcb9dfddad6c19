// The running parts: the broker's queues as an object, the declaration of the
// retry topology, and the consumers' loop and handlers.

module Consumers {
  import opened Common
  import opened Routing
  import opened Deaths
  import opened Broker
  import opened Turns
  import Relay
  import EmailService
  import EmailAudit
  import EmailTables
  import PushService
  import PushAudit

  // ---- The broker ----

  class Server {
    var email: Queue
    var push: Queue
    var retry: seq<Waiting>
    var parked: seq<Body>

    // The retry topology as far as it is declared; all of it is durable.
    var retryDeclared: bool
    var ttlMillis: nat
    var returnExchange: string
    var retryKeys: set<RoutingKey>
    var parkedDeclared: bool

    // The ledger of what became of every message.
    ghost var published: seq<Ident>
    ghost var acked: seq<Msg>
    ghost var shelved: seq<Msg>
    ghost var lost: seq<Msg>
    ghost var strays: seq<Msg>

    ghost function View(): Queues
      reads this
    {
      Queues(email, push, retry, parked, published, acked, shelved, lost, strays)
    }

    function PolicyOf(maxRetryAttempts: int, prefetch: nat): Policy
      reads this
    {
      Policy(maxRetryAttempts, prefetch, ttlMillis, retryKeys, parkedDeclared)
    }

    // The declarations stay as they were.
    twostate predicate SameTopology()
      reads this
    {
      && retryDeclared == old(retryDeclared)
      && ttlMillis == old(ttlMillis) && returnExchange == old(returnExchange)
      && retryKeys == old(retryKeys) && parkedDeclared == old(parkedDeclared)
    }

    constructor ()
      ensures View() == EMPTY && !retryDeclared && retryKeys == {} && !parkedDeclared
    {
      email, push := Queue([], []), Queue([], []);
      retry, parked := [], [];
      retryDeclared, ttlMillis, returnExchange, retryKeys, parkedDeclared := false, 0, "", {}, false;
      published, acked, shelved, lost, strays := [], [], [], [], [];
    }

    function Of(c: Channel): Queue
      reads this
    {
      if c.EmailChannel? then email else push
    }

    method SetQueue(c: Channel, q: Queue)
      modifies this
      ensures View() == old(View()).With(c, q) && SameTopology()
    {
      if c.EmailChannel? {
        email := q;
      } else {
        push := q;
      }
    }

    method PublishRaw(body: Body, outcome: Park) returns (err: bool)
      modifies this
      ensures View() == if outcome.NotEnqueued? then old(View()) else Copy(PolicyOf(0, 0), old(View()), body)
      ensures err == !outcome.Enqueued? && SameTopology()
    {
      if !outcome.NotEnqueued? && parkedDeclared {
        parked := parked + [body];
      }
      err := !outcome.Enqueued?;
    }

    // Takes the oldest delivery of a channel off the books.
    method Remove(c: Channel)
      requires Of(c).unacked != []
      modifies this
      ensures View() == Pop(old(View()), c) && SameTopology()
    {
      var q := Of(c);
      SetQueue(c, Queue(q.ready, q.unacked[1..]));
    }

    method Ack(c: Channel, m: Msg, ghost parked: bool)
      requires Of(c).unacked != []
      modifies this
      ensures var rest := Pop(old(View()), c);
              View() == if parked then rest.(shelved := rest.shelved + [m]) else rest.(acked := rest.acked + [m])
      ensures SameTopology()
    {
      Remove(c);
      if parked {
        shelved := shelved + [m];
      } else {
        acked := acked + [m];
      }
    }

    // Without a dead-letter exchange a rejected message is discarded.
    method Nack(c: Channel, deadLettered: bool, m: Msg, maxRetryAttempts: int, prefetch: nat, now: Time)
      requires Of(c).unacked != []
      modifies this
      ensures View() == var rest := Pop(old(View()), c);
                        if deadLettered then Reject(old(PolicyOf(maxRetryAttempts, prefetch)), rest, c, m, now)
                        else rest.(lost := rest.lost + [m])
      ensures SameTopology()
    {
      Remove(c);
      if deadLettered && m.key in retryKeys {
        var dead := m.(headers := Die(m.headers, QueueName(c), Rejected),
                       history := m.history.(rejections := m.history.rejections + 1));
        retry := retry + [Waiting(dead, now + ttlMillis * MILLISECOND, c)];
      } else {
        lost := lost + [m];
      }
    }

    method DeliverNext(c: Channel, now: Time)
      requires Of(c).ready != []
      modifies this
      ensures View() == Deliver(old(View()), c, now) && SameTopology()
    {
      var q := Of(c);
      SetQueue(c, Queue(q.ready[1..], q.unacked + [Taken(q.ready[0], now)]));
    }
  }

  // ---- The retry topology ----

  // time.Duration division truncates towards zero.
  function MillisOf(d: Time): int {
    if d >= 0 then d / MILLISECOND else -(-d / MILLISECOND)
  }

  // Whether each request to the broker succeeds.
  datatype TopologyEnv = TopologyEnv(channel: bool, exchange: bool, queue: bool, bind: int -> bool, parked: bool)

  // The broker refuses a negative TTL, and to declare an existing queue again
  // with other arguments.
  predicate Declarable(server: Server, retryDelay: Time, sourceExchange: string)
    reads server
  {
    && 0 <= MillisOf(retryDelay)
    && (server.retryDeclared ==>
          server.ttlMillis == MillisOf(retryDelay) && server.returnExchange == sourceExchange)
  }

  // Binds one key after the other until the broker refuses one.
  method BindRoutingKeys(server: Server, routingKeys: seq<RoutingKey>, env: TopologyEnv) returns (ok: bool)
    modifies server`retryKeys
    ensures ok <==> forall i :: 0 <= i < |routingKeys| ==> env.bind(i)
    ensures ok ==> server.retryKeys == old(server.retryKeys) + KeySet(routingKeys)
    ensures exists n :: 0 <= n <= |routingKeys| && server.retryKeys == old(server.retryKeys) + KeySet(routingKeys[..n])
  {
    for i := 0 to |routingKeys|
      invariant server.retryKeys == old(server.retryKeys) + KeySet(routingKeys[..i])
      invariant forall j :: 0 <= j < i ==> env.bind(j)
    {
      if !env.bind(i) {
        return false;
      }
      server.retryKeys := server.retryKeys + {routingKeys[i]};
      assert routingKeys[..i + 1] == routingKeys[..i] + [routingKeys[i]];
    }
    assert routingKeys[..|routingKeys|] == routingKeys;
    return true;
  }

  // On a fresh broker or after a restart: success leaves the retry queue with
  // this delay and return exchange, every key bound and the parked queue. A
  // failure adds a prefix of the bindings at most, and takes nothing away.
  method DeclareRetryTopology(
    server: Server, retryDelay: Time, sourceExchange: string, routingKeys: seq<RoutingKey>, env: TopologyEnv)
    returns (ok: bool)
    modifies server
    ensures server.View() == old(server.View())
    ensures ok <==> && env.channel && env.exchange && env.queue && env.parked
                    && (forall i :: 0 <= i < |routingKeys| ==> env.bind(i))
                    && old(Declarable(server, retryDelay, sourceExchange))
    ensures ok ==> server.retryDeclared && server.parkedDeclared
    ensures ok ==> server.ttlMillis == MillisOf(retryDelay) && server.returnExchange == sourceExchange
    ensures ok ==> server.ttlMillis * 1_000_000 <= Max(retryDelay, 0) < (server.ttlMillis + 1) * 1_000_000
    ensures ok ==> -1_000_000 < retryDelay
    ensures ok ==> server.retryKeys == old(server.retryKeys) + KeySet(routingKeys)
    ensures !ok ==> server.parkedDeclared == old(server.parkedDeclared)
    ensures !ok ==> exists n :: 0 <= n <= |routingKeys|
                     && server.retryKeys == old(server.retryKeys) + KeySet(routingKeys[..n])
    ensures old(server.retryDeclared) ==>
      server.retryDeclared && server.ttlMillis == old(server.ttlMillis)
      && server.returnExchange == old(server.returnExchange)
  {
    assert KeySet(routingKeys[..0]) == {} && routingKeys[..|routingKeys|] == routingKeys;
    if !env.channel || !env.exchange || !env.queue || !Declarable(server, retryDelay, sourceExchange) {
      return false;
    }
    server.retryDeclared, server.ttlMillis, server.returnExchange := true, MillisOf(retryDelay), sourceExchange;
    var bound := BindRoutingKeys(server, routingKeys, env);
    if !bound {
      return false;
    }
    if !env.parked {
      return false;
    }
    server.parkedDeclared := true;
    return true;
  }

  // A settled message is lost exactly when its handler failed, the retry
  // exchange has no queue for its key, and it has retries left or could not be
  // parked.
  lemma SettlingLosesExactly(p: Policy, b: Queues, c: Channel, err: bool, park: Park, now: Time)
    requires b.Of(c).unacked != []
    ensures var m, b' := b.Of(c).unacked[0], Settle(p, b, c, err, park, now);
            var parked := Rejections(m.headers) >= p.maxRetryAttempts && park.Enqueued?;
            && (b'.lost != b.lost <==> err && !parked && m.key !in p.retryKeys)
            && (b'.lost != b.lost ==> |b'.lost| == |b.lost| + 1 && IdentOf(b'.lost[|b.lost|]) == IdentOf(m))
            && (|b'.retry| == |b.retry| + 1 <==> err && !parked && m.key in p.retryKeys)
  {
    var m := Tried(b.Of(c).unacked[0]);
    assert |b.lost + [m]| != |b.lost| && |b.lost + [ParkFailed(m)]| != |b.lost|;
  }

  // The queues are bound to more keys than the two that are declared.
  lemma MoreIsBoundThanDeclared(p: Policy)
    requires p.retryKeys == KeySet([EMAIL_KEY, PUSH_KEY])
    ensures var key := ["gossip", "emails", "resend"]; Bound(EmailChannel, key) && key !in p.retryKeys
  {
    BoundKeys(EmailChannel, ["gossip", "emails", "resend"]);
    assert EMAIL_KEY[2] == "send" && PUSH_KEY[1] == "push";
  }

  // ---- The consumer's loop ----

  class Consumer {
    const server: Server
    const channel: Channel
    const deadLettered: bool
    const prefetch: nat
    const maxRetryAttempts: int

    constructor (server: Server, channel: Channel, deadLettered: bool, prefetch: nat, maxRetryAttempts: int)
      ensures this.server == server && this.channel == channel && this.deadLettered == deadLettered
      ensures this.prefetch == prefetch && this.maxRetryAttempts == maxRetryAttempts
    {
      this.server, this.channel, this.deadLettered := server, channel, deadLettered;
      this.prefetch, this.maxRetryAttempts := prefetch, maxRetryAttempts;
    }

    ghost function PolicyNow(): Policy
      reads server
    {
      server.PolicyOf(maxRetryAttempts, prefetch)
    }

    // Acknowledge on success; on failure reject, unless the queue is
    // dead-lettered, the retries are used up and parking works.
    method SettleDelivery(err: bool, park: Park, now: Time)
      requires server.Of(channel).unacked != []
      modifies server
      ensures server.View()
              == SettleOrDiscard(deadLettered, old(PolicyNow()), old(server.View()), channel, err, park, now)
      ensures PolicyNow() == old(PolicyNow())
    {
      var m := Tried(server.Of(channel).unacked[0]);
      if err {
        var deaths := DeathCount(m.headers);
        if deadLettered && deaths >= maxRetryAttempts {
          var parkErr := server.PublishRaw(m.body, park);
          if parkErr {
            if park.EnqueuedButError? && server.parkedDeclared {
              server.strays := server.strays + [m];
            }
            server.Nack(channel, deadLettered, ParkFailed(m), maxRetryAttempts, prefetch, now);
          } else {
            server.Ack(channel, m, true);
          }
        } else {
          server.Nack(channel, deadLettered, m, maxRetryAttempts, prefetch, now);
        }
      } else {
        server.Ack(channel, m, false);
      }
    }

    method HandleTurn(turn: Turn)
      requires turn.Delivery?
      modifies server
      ensures server.View() == AfterTurn(deadLettered, old(PolicyNow()), old(server.View()), channel, turn)
      ensures PolicyNow() == old(PolicyNow())
    {
      if server.Of(channel).unacked == [] && server.Of(channel).ready != [] {
        server.DeliverNext(channel, turn.now);
      }
      if server.Of(channel).unacked != [] {
        SettleDelivery(turn.err, turn.park, turn.now);
      }
    }

    method HandleNext(script: seq<Turn>, n: nat, ghost policy: Policy, ghost start: Queues)
      requires n < |script| && script[n].Delivery? && PolicyNow() == policy
      requires server.View() == AfterTurns(deadLettered, policy, start, channel, script, n)
      modifies server
      ensures server.View() == AfterTurns(deadLettered, policy, start, channel, script, n + 1)
      ensures PolicyNow() == policy
    {
      OneTurnMore(deadLettered, policy, start, channel, script, n);
      HandleTurn(script[n]);
    }

    method SettleScript(script: seq<Turn>) returns (handled: nat)
      modifies server
      ensures handled <= |script|
      ensures handled < |script| ==> !script[handled].Delivery?
      ensures forall i :: 0 <= i < handled ==> script[i].Delivery?
      ensures server.View() == AfterTurns(deadLettered, old(PolicyNow()), old(server.View()), channel, script, handled)
      ensures PolicyNow() == old(PolicyNow())
    {
      ghost var policy, start := PolicyNow(), server.View();
      handled := 0;
      while handled < |script|
        invariant handled <= |script|
        invariant forall i :: 0 <= i < handled ==> script[i].Delivery?
        invariant server.View() == AfterTurns(deadLettered, policy, start, channel, script, handled)
        invariant PolicyNow() == policy
      {
        if !script[handled].Delivery? {
          break;
        }
        HandleNext(script, handled, policy, start);
        handled := handled + 1;
      }
    }

    // The loop settles delivery after delivery, the oldest first, each as its
    // handler reports. It never stops on a handler error, only on cancellation or a
    // closed channel.
    method Consume(script: seq<Turn>) returns (handled: nat)
      modifies server
      ensures handled <= |script|
      ensures handled < |script| ==> !script[handled].Delivery?
      ensures forall i :: 0 <= i < handled ==> script[i].Delivery?
      ensures server.View() == AfterTurns(deadLettered, old(PolicyNow()), old(server.View()), channel, script, handled)
      ensures MeetsFate(deadLettered, old(PolicyNow()), old(server.View()), server.View(), channel, script, handled)
      ensures PolicyNow() == old(PolicyNow())
    {
      ghost var policy, start := PolicyNow(), server.View();
      handled := SettleScript(script);
      ScriptMeetsFate(deadLettered, policy, start, channel, script, handled);
    }
  }

  // ---- The handlers ----

  class EmailConsumer {
    const cfg: Relay.Config
    const service: EmailService.Service
    ghost var log: seq<EmailService.Trace>
    ghost var epoch: nat
    ghost var clock: Time

    constructor (cfg: Relay.Config, service: EmailService.Service)
      ensures this.cfg == cfg && this.service == service && log == [] && epoch == 0
    {
      this.cfg, this.service := cfg, service;
      log, epoch := [], 0;
    }

    ghost predicate Wired()
      reads this
    {
      service.cfg == cfg.email && service.breaker.settings == cfg.email.breaker
    }

    ghost function Side(): EmailAudit.Side
      reads this, service.pool, service.breaker
    {
      EmailAudit.Side(service.pool.View(), service.breaker.circuit, log, epoch, clock)
    }

    method HandleMessage(body: Body, env: EmailService.Env) returns (result: SendResult)
      requires Wired()
      modifies this, service.pool, service.breaker
      ensures Wired()
      ensures Side() == Relay.EmailAfter(cfg, old(Side()), body, env)
      ensures Relay.EmailHandled(cfg, old(Side()), Side(), body, result)
      ensures result == Relay.EmailResult(cfg, old(Side()), body, env)
    {
      var decoded := cfg.decodeEmail(body);
      if decoded.None? || !(EmailTables.NAMESPACE <= decoded.value.serviceId) {
        return Returned(true);
      }
      if decoded.value.eventType != "email.send" {
        return Returned(true);
      }
      ghost var trace;
      result, trace := service.Send(decoded.value, env);
      log, clock := log + [trace], env.end;
      Relay.EmailIsHandled(cfg, old(Side()), body, env);
    }
  }

  class PushConsumer {
    const cfg: Relay.Config
    const service: PushService.Service
    ghost var log: seq<PushService.Trace>
    ghost var epoch: nat
    ghost var clock: Time

    constructor (cfg: Relay.Config, service: PushService.Service)
      ensures this.cfg == cfg && this.service == service && log == [] && epoch == 0
    {
      this.cfg, this.service := cfg, service;
      log, epoch := [], 0;
    }

    ghost predicate Wired()
      reads this
    {
      service.cfg == cfg.push && service.breaker.settings == cfg.push.breaker
    }

    ghost function Side(): PushAudit.Side
      reads this, service.repo, service.breaker
    {
      PushAudit.Side(service.repo.notifications, service.breaker.circuit, log, epoch, clock)
    }

    method HandleMessage(body: Body, env: PushService.Env) returns (result: SendResult)
      requires Wired()
      modifies this, service.repo, service.breaker
      ensures Wired()
      ensures Side() == Relay.PushAfter(cfg, old(Side()), body, env)
      ensures Relay.PushHandled(cfg, old(Side()), Side(), body, result)
      ensures result == Relay.PushResult(cfg, old(Side()), body, env)
    {
      var decoded := cfg.decodePush(body);
      if decoded.None? || !(EmailTables.NAMESPACE <= decoded.value.serviceId) {
        return Returned(true);
      }
      if decoded.value.eventType != "push.send" {
        return Returned(true);
      }
      ghost var trace;
      result, trace := service.Send(decoded.value.notification, decoded.value.requestId, env);
      log, clock := log + [trace], env.end;
      Relay.PushIsHandled(cfg, old(Side()), body, env);
    }
  }

  // What a handler that died in this attempt leaves behind: with the start of a
  // new process it is the side after the relay's crash step.
  predicate EmailIsCut(cfg: Relay.Config, s: Relay.State, env: EmailService.Env, left: EmailAudit.Side) {
    && Relay.EmailMayBeCut(cfg, s, Relay.During(env))
    && EmailAudit.Restarted(left) == Relay.EmailAfterCut(cfg, s, Relay.During(env))
  }

  predicate PushIsCut(cfg: Relay.Config, s: Relay.State, env: PushService.Env, left: PushAudit.Side) {
    && Relay.PushMayBeCut(cfg, s, Relay.During(env))
    && PushAudit.Restarted(left) == Relay.PushAfterCut(cfg, s, Relay.During(env))
  }

  // One delivery from the handler to its settling is one step of the relay.
  method ConsumeOneEmail(
    consumer: Consumer, handler: EmailConsumer, ghost s: Relay.State, env: EmailService.Env, park: Park, now: Time)
    returns (died: bool)
    requires consumer.channel.EmailChannel? && consumer.deadLettered && handler.Wired()
    requires consumer.PolicyNow() == handler.cfg.policy
    requires s.broker == consumer.server.View() && s.email == handler.Side() && s.now == now
    requires Relay.EmailMayRun(s, env)
    modifies consumer.server, handler, handler.service.pool, handler.service.breaker
    ensures died <==> !Relay.Enabled(handler.cfg, s, Relay.HandleEmail(env, park))
    ensures !died ==> var s' := Relay.Next(handler.cfg, s, Relay.HandleEmail(env, park));
                      s'.broker == consumer.server.View() && s'.email == handler.Side()
    ensures died ==> consumer.server.View() == s.broker && EmailIsCut(handler.cfg, s, env, handler.Side())
  {
    var result := handler.HandleMessage(consumer.server.email.unacked[0].body, env);
    died := result.Died?;
    if !died {
      consumer.SettleDelivery(result.err, park, now);
    }
  }

  method ConsumeOnePush(
    consumer: Consumer, handler: PushConsumer, ghost s: Relay.State, env: PushService.Env, park: Park, now: Time)
    returns (died: bool)
    requires consumer.channel.PushChannel? && consumer.deadLettered && handler.Wired()
    requires consumer.PolicyNow() == handler.cfg.policy
    requires s.broker == consumer.server.View() && s.push == handler.Side() && s.now == now
    requires Relay.PushMayRun(s, env)
    modifies consumer.server, handler, handler.service.repo, handler.service.breaker
    ensures died <==> !Relay.Enabled(handler.cfg, s, Relay.HandlePush(env, park))
    ensures !died ==> var s' := Relay.Next(handler.cfg, s, Relay.HandlePush(env, park));
                      s'.broker == consumer.server.View() && s'.push == handler.Side()
    ensures died ==> consumer.server.View() == s.broker && PushIsCut(handler.cfg, s, env, handler.Side())
  {
    var result := handler.HandleMessage(consumer.server.push.unacked[0].body, env);
    died := result.Died?;
    if !died {
      consumer.SettleDelivery(result.err, park, now);
    }
  }
}
