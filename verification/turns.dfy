// What the consumer's loop makes of a script of handler results: which message
// each of them settles, and where it goes.

module Turns {
  import opened Common
  import opened Routing
  import opened Deaths
  import opened Broker

  // What the loop meets next: cancellation, a closed channel, or a delivery
  // together with what the handler and a possible park report.
  datatype Turn = Cancelled | ChannelClosed | Delivery(err: bool, park: Park, now: Time)

  // A queue without a dead-letter exchange discards what fails.
  function SettleOrDiscard(
    deadLettered: bool, p: Policy, b: Queues, c: Channel, err: bool, park: Park, now: Time): Queues
    requires b.Of(c).unacked != []
  {
    if deadLettered || !err then Settle(p, b, c, err, park, now)
    else Pop(b, c).(lost := b.lost + [Tried(b.Of(c).unacked[0])])
  }

  function AfterTurn(deadLettered: bool, p: Policy, b: Queues, c: Channel, t: Turn): Queues
    requires t.Delivery?
  {
    var delivered := if b.Of(c).unacked == [] && b.Of(c).ready != [] then Deliver(b, c, t.now) else b;
    if delivered.Of(c).unacked == [] then delivered
    else SettleOrDiscard(deadLettered, p, delivered, c, t.err, t.park, t.now)
  }

  // After the first n turns.
  function AfterTurns(deadLettered: bool, p: Policy, b: Queues, c: Channel, turns: seq<Turn>, n: nat): Queues
    requires n <= |turns|
  {
    if n == 0 then b
    else
      var before := AfterTurns(deadLettered, p, b, c, turns, n - 1);
      if turns[n - 1].Delivery? then AfterTurn(deadLettered, p, before, c, turns[n - 1]) else before
  }

  lemma OneTurnMore(deadLettered: bool, p: Policy, b: Queues, c: Channel, turns: seq<Turn>, n: nat)
    requires n < |turns| && turns[n].Delivery?
    ensures AfterTurns(deadLettered, p, b, c, turns, n + 1)
            == AfterTurn(deadLettered, p, AfterTurns(deadLettered, p, b, c, turns, n), c, turns[n])
  {
  }

  // ---- Which message, and where it goes ----

  datatype Fate = Acked | Shelved | Retried | Dropped

  // A message that was handled goes here: acknowledged if and only if its
  // handler succeeded.
  function FateOf(deadLettered: bool, p: Policy, m: Msg, t: Turn): Fate
    requires t.Delivery?
  {
    if !t.err then Acked
    else if !deadLettered then Dropped
    else if Rejections(m.headers) >= p.maxRetryAttempts && t.park == Enqueued then Shelved
    else if m.key in p.retryKeys then Retried
    else Dropped
  }

  function Idents(ms: seq<Msg>): seq<Ident> {
    seq(|ms|, i requires 0 <= i < |ms| => IdentOf(ms[i]))
  }

  function IdentsWaiting(ws: seq<Waiting>): seq<Ident> {
    seq(|ws|, i requires 0 <= i < |ws| => IdentOf(ws[i].msg))
  }

  // The part of a line with a certain fate, when turn k settles its message k.
  function Meet(deadLettered: bool, p: Policy, line: seq<Msg>, turns: seq<Turn>, n: nat, fate: Fate): seq<Ident>
    requires n <= |turns| && forall k :: 0 <= k < n ==> turns[k].Delivery?
  {
    if n == 0 then []
    else
      Meet(deadLettered, p, line, turns, n - 1, fate) +
      if n <= |line| && FateOf(deadLettered, p, line[n - 1], turns[n - 1]) == fate then [IdentOf(line[n - 1])] else []
  }

  // Where the messages of each fate are.
  function Place(b: Queues, fate: Fate): seq<Ident> {
    match fate
    case Acked => Idents(b.acked)
    case Shelved => Idents(b.shelved)
    case Retried => IdentsWaiting(b.retry)
    case Dropped => Idents(b.lost)
  }

  // ---- One turn ----

  lemma IdentsAppend(ms: seq<Msg>, m: Msg, ws: seq<Waiting>, w: Waiting)
    ensures Idents(ms + [m]) == Idents(ms) + [IdentOf(m)]
    ensures IdentsWaiting(ws + [w]) == IdentsWaiting(ws) + [IdentOf(w.msg)]
  {
  }

  // A delivery that is settled leaves the line and goes to the place of its
  // fate, as the message it is.
  lemma SettlingMoves(deadLettered: bool, p: Policy, b: Queues, c: Channel, t: Turn) returns (moved: Msg, w: Waiting)
    requires t.Delivery? && b.Of(c).unacked != []
    ensures var m, b' := b.Of(c).unacked[0], SettleOrDiscard(deadLettered, p, b, c, t.err, t.park, t.now);
            var fate := FateOf(deadLettered, p, m, t);
            && IdentOf(moved) == IdentOf(w.msg) == IdentOf(m)
            && b'.acked == b.acked + (if fate == Acked then [moved] else [])
            && b'.shelved == b.shelved + (if fate == Shelved then [moved] else [])
            && b'.lost == b.lost + (if fate == Dropped then [moved] else [])
            && b'.retry == b.retry + (if fate == Retried then [w] else [])
            && w.deadline == t.now + p.ttlMillis * 1_000_000 && w.from == c
  {
    moved := Tried(b.Of(c).unacked[0]);
    if t.err && deadLettered && Rejections(moved.headers) >= p.maxRetryAttempts {
      moved := if t.park.Enqueued? then moved else ParkFailed(moved);
    }
    w := Waiting(moved.(headers := Die(moved.headers, QueueName(c), Rejected),
                        history := moved.history.(rejections := moved.history.rejections + 1)),
                 t.now + p.Delay(), c);
  }

  // It leaves its own line and no other.
  lemma SettlingLeavesLine(deadLettered: bool, p: Policy, b: Queues, c: Channel, t: Turn)
    requires t.Delivery? && b.Of(c).unacked != []
    ensures var b' := SettleOrDiscard(deadLettered, p, b, c, t.err, t.park, t.now);
            && b'.Of(c) == Queue(b.Of(c).ready, b.Of(c).unacked[1..])
            && forall c' :: c' != c ==> b'.Of(c') == b.Of(c')
  {
  }

  // A copy is parked exactly if the retries are used up and the park took
  // effect, whatever it reported.
  lemma SettlingParksExactly(deadLettered: bool, p: Policy, b: Queues, c: Channel, t: Turn)
    requires t.Delivery? && b.Of(c).unacked != []
    ensures var m, b' := b.Of(c).unacked[0], SettleOrDiscard(deadLettered, p, b, c, t.err, t.park, t.now);
            b'.parked == b.parked +
              if t.err && deadLettered && Rejections(m.headers) >= p.maxRetryAttempts && t.park != NotEnqueued
                 && p.parkedDeclared
              then [m.body] else []
  {
  }

  lemma SettlingMeetsFate(deadLettered: bool, p: Policy, b: Queues, c: Channel, t: Turn, f: Fate)
    requires t.Delivery? && b.Of(c).unacked != []
    ensures var m, b' := b.Of(c).unacked[0], SettleOrDiscard(deadLettered, p, b, c, t.err, t.park, t.now);
            Place(b', f) == Place(b, f) + if FateOf(deadLettered, p, m, t) == f then [IdentOf(m)] else []
  {
    var moved, w := SettlingMoves(deadLettered, p, b, c, t);
    match f
    case Acked => IdentsAppend(b.acked, moved, b.retry, w);
    case Shelved => IdentsAppend(b.shelved, moved, b.retry, w);
    case Retried => IdentsAppend(b.acked, moved, b.retry, w);
    case Dropped => IdentsAppend(b.lost, moved, b.retry, w);
  }

  // Without turns nothing moves; a turn settles the head of the line.
  lemma TurnMeetsFate(deadLettered: bool, p: Policy, b: Queues, c: Channel, t: Turn)
    requires t.Delivery?
    ensures var line, b' := Line(b.Of(c)), AfterTurn(deadLettered, p, b, c, t);
            && Line(b'.Of(c)) == (if line == [] then [] else line[1..])
            && (forall c' :: c' != c ==> b'.Of(c') == b.Of(c'))
            && forall f :: Place(b', f) == Place(b, f) +
                 if line != [] && FateOf(deadLettered, p, line[0], t) == f then [IdentOf(line[0])] else []
  {
    var q := b.Of(c);
    var ready := if q.unacked == [] && q.ready != [] then Deliver(b, c, t.now) else b;
    if q.unacked == [] && q.ready != [] {
      DeliverKeepsLine(b, c, t.now);
    }
    assert forall f :: Place(ready, f) == Place(b, f);
    if ready.Of(c).unacked != [] {
      HeadOfLine(ready.Of(c));
      SettlingLeavesLine(deadLettered, p, ready, c, t);
      forall f
        ensures Place(AfterTurn(deadLettered, p, b, c, t), f) == Place(ready, f) +
                if FateOf(deadLettered, p, ready.Of(c).unacked[0], t) == f
                then [IdentOf(ready.Of(c).unacked[0])] else []
      {
        SettlingMeetsFate(deadLettered, p, ready, c, t, f);
      }
    }
  }

  lemma HeadOfLine(q: Queue)
    requires q.unacked != []
    ensures Line(q) != [] && Line(q)[0] == Bare(q.unacked[0])
    ensures Line(Queue(q.ready, q.unacked[1..])) == Line(q)[1..]
  {
    assert q.unacked + q.ready == [q.unacked[0]] + (q.unacked[1..] + q.ready);
    BaresConcat([q.unacked[0]], q.unacked[1..] + q.ready);
  }

  // ---- The whole script ----

  // From b to b': the first n messages of the line have met their fate, in
  // order, and the others are still in it, in order; the other channel has seen
  // nothing of it.
  ghost predicate MeetsFate(
    deadLettered: bool, p: Policy, b: Queues, b': Queues, c: Channel, turns: seq<Turn>, n: nat)
    requires n <= |turns| && forall k :: 0 <= k < n ==> turns[k].Delivery?
  {
    var line := Line(b.Of(c));
    && Line(b'.Of(c)) == (if n <= |line| then line[n..] else [])
    && (forall c' :: c' != c ==> b'.Of(c') == b.Of(c'))
    && forall f :: Place(b', f) == Place(b, f) + Meet(deadLettered, p, line, turns, n, f)
  }

  lemma OneMoreMeetsFate(
    deadLettered: bool, p: Policy, b: Queues, b': Queues, c: Channel, turns: seq<Turn>, n: nat)
    requires n < |turns| && (forall k :: 0 <= k <= n ==> turns[k].Delivery?)
    requires MeetsFate(deadLettered, p, b, b', c, turns, n)
    ensures MeetsFate(deadLettered, p, b, AfterTurn(deadLettered, p, b', c, turns[n]), c, turns, n + 1)
  {
    TurnMeetsFate(deadLettered, p, b', c, turns[n]);
    OneTurnFurther(deadLettered, p, b, b', AfterTurn(deadLettered, p, b', c, turns[n]), c, turns, n);
  }

  // The last two states may be any that are related like those around a turn.
  lemma OneTurnFurther(
    deadLettered: bool, p: Policy, b: Queues, b1: Queues, b2: Queues, c: Channel, turns: seq<Turn>, n: nat)
    requires n < |turns| && (forall k :: 0 <= k <= n ==> turns[k].Delivery?)
    requires MeetsFate(deadLettered, p, b, b1, c, turns, n)
    requires var line := Line(b1.Of(c));
             && Line(b2.Of(c)) == (if line == [] then [] else line[1..])
             && (forall c' :: c' != c ==> b2.Of(c') == b1.Of(c'))
             && forall f :: Place(b2, f) == Place(b1, f) +
                  if line != [] && FateOf(deadLettered, p, line[0], turns[n]) == f then [IdentOf(line[0])] else []
    ensures MeetsFate(deadLettered, p, b, b2, c, turns, n + 1)
  {
    var line, rest := Line(b.Of(c)), Line(b1.Of(c));
    forall f
      ensures Place(b2, f) == Place(b, f) + Meet(deadLettered, p, line, turns, n + 1, f)
    {
      assert rest != [] ==> rest[0] == line[n];
    }
  }

  lemma {:induction false} ScriptMeetsFate(
    deadLettered: bool, p: Policy, b: Queues, c: Channel, turns: seq<Turn>, n: nat)
    requires n <= |turns| && forall k :: 0 <= k < n ==> turns[k].Delivery?
    ensures MeetsFate(deadLettered, p, b, AfterTurns(deadLettered, p, b, c, turns, n), c, turns, n)
  {
    if n > 0 {
      ScriptMeetsFate(deadLettered, p, b, c, turns, n - 1);
      OneMoreMeetsFate(
        deadLettered, p, b, AfterTurns(deadLettered, p, b, c, turns, n - 1), c, turns, n - 1);
    }
  }
}
