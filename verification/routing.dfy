// Exchanges and routing keys. A routing key is modelled by its dot-separated
// words; topic matching follows section 3.1.3.3 of AMQP 0-9-1 and direct
// matching section 3.1.3.1.

module Routing {
  type RoutingKey = seq<string>

  datatype Channel = EmailChannel | PushChannel

  // Topic exchange: "*" stands for one word, "#" for any number of words.
  predicate TopicMatches(pattern: seq<string>, key: RoutingKey)
    decreases |pattern| + |key|
  {
    if pattern == [] then key == []
    else if pattern[0] == "#" then
      TopicMatches(pattern[1..], key) || (key != [] && TopicMatches(pattern, key[1..]))
    else
      key != [] && (pattern[0] == "*" || pattern[0] == key[0]) && TopicMatches(pattern[1..], key[1..])
  }

  // Direct exchange: a binding key matches itself.
  predicate DirectMatches(bindingKey: RoutingKey, key: RoutingKey) {
    bindingKey == key
  }

  // Whether a direct exchange has a queue for the key.
  predicate Routed(bindings: set<RoutingKey>, key: RoutingKey): (routed: bool)
    ensures routed <==> key in bindings
  {
    exists bindingKey <- bindings :: DirectMatches(bindingKey, key)
  }

  // The bindings of the two provider queues to gossip.topic.exchange.
  const EMAIL_PATTERN: seq<string> := ["gossip", "emails", "*"]
  const PUSH_PATTERN: seq<string> := ["gossip", "push", "*"]

  // The routing keys the retry topology is declared with.
  const EMAIL_KEY: RoutingKey := ["gossip", "emails", "send"]
  const PUSH_KEY: RoutingKey := ["gossip", "push", "send"]

  function Pattern(c: Channel): seq<string> {
    if c.EmailChannel? then EMAIL_PATTERN else PUSH_PATTERN
  }

  predicate Bound(c: Channel, key: RoutingKey) {
    TopicMatches(Pattern(c), key)
  }

  lemma StarMatchesOneWord(a: string, b: string, key: RoutingKey)
    requires a !in {"#", "*"} && b !in {"#", "*"}
    ensures TopicMatches([a, b, "*"], key) <==> |key| == 3 && key[0] == a && key[1] == b
  {
    var pattern := [a, b, "*"];
    assert pattern[1..] == [b, "*"];
    assert [b, "*"][1..] == ["*"];
    if key != [] && key[0] == a {
      var rest := key[1..];
      assert TopicMatches(pattern, key) == TopicMatches([b, "*"], rest);
      if rest != [] && rest[0] == b {
        assert TopicMatches([b, "*"], rest) == TopicMatches(["*"], rest[1..]);
        assert ["*"][1..] == [];
        assert TopicMatches(["*"], rest[1..]) <==> |rest| == 2;
      }
    }
  }

  // Both bindings accept any third word, so the queues receive more keys than
  // the two that are declared for retries; no key reaches both queues.
  lemma BoundKeys(c: Channel, key: RoutingKey)
    ensures Bound(c, key) <==> |key| == 3 && key[0] == "gossip" && key[1] == Pattern(c)[1]
    ensures Bound(EmailChannel, key) ==> !Bound(PushChannel, key)
  {
    StarMatchesOneWord("gossip", "emails", key);
    StarMatchesOneWord("gossip", "push", key);
  }

  // The two declared keys: each one reaches its own queue and no other.
  lemma DeclaredKeysAreBound()
    ensures Bound(EmailChannel, EMAIL_KEY) && !Bound(PushChannel, EMAIL_KEY)
    ensures Bound(PushChannel, PUSH_KEY) && !Bound(EmailChannel, PUSH_KEY)
  {
    BoundKeys(EmailChannel, EMAIL_KEY);
    BoundKeys(PushChannel, EMAIL_KEY);
    BoundKeys(PushChannel, PUSH_KEY);
    BoundKeys(EmailChannel, PUSH_KEY);
  }

  function KeySet(keys: seq<RoutingKey>): set<RoutingKey> {
    set k | k in keys
  }

  // With the two keys that the application declares, both are safe to reject
  // and return to their own queues.
  lemma ApplicationTopology(retryKeys: set<RoutingKey>)
    requires retryKeys == KeySet([EMAIL_KEY, PUSH_KEY])
    ensures forall key :: key in retryKeys <==> key in {["gossip", "emails", "send"], ["gossip", "push", "send"]}
    ensures EMAIL_KEY == ["gossip", "emails", "send"] && PUSH_KEY == ["gossip", "push", "send"]
    ensures Bound(EmailChannel, EMAIL_KEY) && !Bound(PushChannel, EMAIL_KEY)
    ensures Bound(PushChannel, PUSH_KEY) && !Bound(EmailChannel, PUSH_KEY)
  {
    DeclaredKeysAreBound();
    assert EMAIL_KEY in [EMAIL_KEY, PUSH_KEY] && PUSH_KEY in [EMAIL_KEY, PUSH_KEY];
  }
}
