/**
  Wire-level values of the broadcast server: the outbound message that a
  publish fans out, and the inbound control frame a client sends to change
  its subscriptions, together with the set semantics a frame has on one
  connection's subscription set.
 */
module Protocol {

  /** A JSON value, as carried in a message payload. The engine never looks
      inside a payload; numbers are modelled as integers. */
  datatype Json =
    | Null
    | Bool(b: bool)
    | Number(n: int)
    | Str(s: string)
    | Array(items: seq<Json>)
    | Object(fields: map<string, Json>)

  /** A payload is a string-keyed JSON object. */
  type Payload = map<string, Json>

  /** The outbound frame `{"channel": ..., "event": ..., "payload": ...}`;
      built once per broadcast and sent unchanged to every subscriber. */
  datatype Message = Message(channel: string, event: string, payload: Payload)

  /** What an inbound JSON object holds under one of the keys "subscribe"
      or "unsubscribe": nothing, a value that is not a list, or a list of
      channel names. */
  datatype Field = Absent | NotAList | List(names: seq<string>)

  /** An inbound control frame, seen through the two keys the server reads. */
  datatype Frame = Frame(subscribe: Field, unsubscribe: Field)

  /** The frame holds a list under "subscribe" or "unsubscribe", so handling
      it looks the connection up in the registry. */
  predicate HoldsList(f: Frame) {
    f.subscribe.List? || f.unsubscribe.List?
  }

  /** The channels named by a list, as a set (duplicates collapse). */
  function ListedChannels(names: seq<string>): (r: set<string>)
    ensures forall c :: c in r <==> c in names
  {
    set c | c in names
  }

  /** `set.update(names)`: add every listed channel. */
  function Subscribe(s: set<string>, names: seq<string>): (r: set<string>)
    ensures s <= r
    ensures forall c :: c in r <==> c in s || c in names
  {
    s + ListedChannels(names)
  }

  /** `set.difference_update(names)`: remove every listed channel. */
  function Unsubscribe(s: set<string>, names: seq<string>): (r: set<string>)
    ensures r <= s
    ensures forall c :: c in r <==> c in s && c !in names
  {
    s - ListedChannels(names)
  }

  /** The subscription set after one frame on a registered connection:
      a list under "subscribe" is applied first, then a list under
      "unsubscribe"; a field that is absent or not a list is skipped. */
  function ApplyFrame(s: set<string>, f: Frame): (r: set<string>)
    ensures forall c :: c in r <==>
      (c in s || (f.subscribe.List? && c in f.subscribe.names))
      && !(f.unsubscribe.List? && c in f.unsubscribe.names)
  {
    var afterSubscribe := if f.subscribe.List? then Subscribe(s, f.subscribe.names) else s;
    if f.unsubscribe.List? then Unsubscribe(afterSubscribe, f.unsubscribe.names) else afterSubscribe
  }

  /** Subscribing to channels that are all present already changes nothing. */
  lemma SubscribePresentIsNoOp(s: set<string>, names: seq<string>)
    requires forall i :: 0 <= i < |names| ==> names[i] in s
    ensures Subscribe(s, names) == s
  {
  }

  /** Subscribing twice to the same list is the same as subscribing once. */
  lemma SubscribeIdempotent(s: set<string>, names: seq<string>)
    ensures Subscribe(Subscribe(s, names), names) == Subscribe(s, names)
  {
  }

  /** Subscribing to a channel twice and unsubscribing it once leaves it
      absent, whatever the set held before. */
  lemma SubscribeTwiceUnsubscribeOnce(s: set<string>, c: string)
    ensures c !in Unsubscribe(Subscribe(Subscribe(s, [c]), [c]), [c])
    ensures Unsubscribe(Subscribe(Subscribe(s, [c]), [c]), [c]) == s - {c}
  {
  }

  /** A frame with no list under either key leaves the set unchanged; this
      covers a frame carrying neither key and values that are not lists. */
  lemma FrameWithoutListsIgnored(s: set<string>, f: Frame)
    requires !f.subscribe.List? && !f.unsubscribe.List?
    ensures ApplyFrame(s, f) == s
  {
  }

  /** With both keys present, subscribe happens before unsubscribe: a channel
      named in both lists is absent afterwards, and a channel named only under
      "subscribe" is present. */
  lemma SubscribeBeforeUnsubscribe(s: set<string>, sub: seq<string>, unsub: seq<string>, c: string)
    ensures c in unsub ==> c !in ApplyFrame(s, Frame(List(sub), List(unsub)))
    ensures c in sub && c !in unsub ==> c in ApplyFrame(s, Frame(List(sub), List(unsub)))
    ensures ApplyFrame(s, Frame(List(sub), List(unsub))) == Unsubscribe(Subscribe(s, sub), unsub)
  {
  }
}
