/**
  The registry's state as values: a map from each live connection to its
  subscription set, and the insertion order of the map's keys (the order in
  which the server's dictionary hands out its entries). The functions here
  are the specifications the backend's methods are proved against.
 */
module Registry {

  /** No connection is listed twice. */
  predicate Distinct<C(==)>(s: seq<C>) {
    forall i, j :: 0 <= i < j < |s| ==> s[i] != s[j]
  }

  /** The registry invariant: `order` lists every key of `conns` exactly once. */
  predicate Inv<C(==)>(order: seq<C>, conns: map<C, set<string>>) {
    && Distinct(order)
    && (forall c :: c in order ==> c in conns)
    && (forall c :: c in conns ==> c in order)
  }

  /** The key order after `pop(x)`: `s` with `x` taken out. */
  function Without<C(==)>(s: seq<C>, x: C): (r: seq<C>)
    ensures forall y :: y in r ==> y in s && y != x
    ensures forall y :: y in s && y != x ==> y in r
    ensures |r| <= |s|
  {
    if s == [] then []
    else (if s[0] == x then [] else [s[0]]) + Without(s[1..], x)
  }

  /** The connections of `entries`, in order, whose subscription set
      contains `channel`. */
  function Subscribers<C(==)>(entries: seq<C>, conns: map<C, set<string>>, channel: string): (r: seq<C>)
    ensures |r| <= |entries|
  {
    if entries == [] then []
    else
      var last := entries[|entries| - 1];
      Subscribers(entries[..|entries| - 1], conns, channel)
        + (if last in conns && channel in conns[last] then [last] else [])
  }

  /** Extending the scanned prefix by one entry adds that entry exactly when
      it is subscribed. */
  lemma SubscribersStep<C>(entries: seq<C>, i: nat, conns: map<C, set<string>>, channel: string)
    requires i < |entries|
    ensures Subscribers(entries[..i + 1], conns, channel)
      == Subscribers(entries[..i], conns, channel)
         + (if entries[i] in conns && channel in conns[entries[i]] then [entries[i]] else [])
  {
    assert entries[..i + 1][..i] == entries[..i];
  }

  /** A connection is listed by `Subscribers` exactly when it is one of the
      entries and its set holds the channel. */
  lemma {:induction false} SubscribersMembers<C>(entries: seq<C>, conns: map<C, set<string>>, channel: string, c: C)
    ensures c in Subscribers(entries, conns, channel) <==> c in entries && c in conns && channel in conns[c]
  {
    if entries != [] {
      var init := entries[..|entries| - 1];
      SubscribersMembers(init, conns, channel, c);
      assert entries == init + [entries[|entries| - 1]];
    }
  }

  /** Over the registry's own key order, `Subscribers` lists exactly the
      registered connections whose set holds the channel. */
  lemma SubscribersOfRegistry<C>(order: seq<C>, conns: map<C, set<string>>, channel: string, c: C)
    requires Inv(order, conns)
    ensures c in Subscribers(order, conns, channel) <==> c in conns && channel in conns[c]
  {
    SubscribersMembers(order, conns, channel, c);
  }

  /** The registered connections subscribed to `channel`. */
  function SubscriberSet<C(==)>(conns: map<C, set<string>>, channel: string): (r: set<C>)
    ensures forall c :: c in r ==> c in conns && channel in conns[c]
    ensures forall c :: c in conns && channel in conns[c] ==> c in r
  {
    set c | c in conns && channel in conns[c]
  }

  /** A sequence without repetitions has as many elements as its set. */
  lemma {:induction false} DistinctCard<C>(s: seq<C>)
    requires Distinct(s)
    ensures |(set c | c in s)| == |s|
  {
    if s != [] {
      var init := s[..|s| - 1];
      var last := s[|s| - 1];
      assert Distinct(init);
      DistinctCard(init);
      assert (set c | c in s) == (set c | c in init) + {last} by {
        assert s == init + [last];
      }
      assert last !in init;
    }
  }

  /** Setting a key and then dropping it leaves the map as dropping it alone. */
  lemma UpdateThenRemove<C, V>(m: map<C, V>, k: C, v: V)
    ensures m[k := v] - {k} == m - {k}
  {
  }

  /** Taking an absent connection out of the key order changes nothing. */
  lemma {:induction false} WithoutAbsent<C>(s: seq<C>, x: C)
    requires x !in s
    ensures Without(s, x) == s
  {
    if s != [] {
      WithoutAbsent(s[1..], x);
    }
  }

  /** `pop` twice has the effect of `pop` once. */
  lemma WithoutIdempotent<C>(s: seq<C>, x: C)
    ensures Without(Without(s, x), x) == Without(s, x)
  {
    WithoutAbsent(Without(s, x), x);
  }

  /** Taking out a connection that was appended last restores the old order
      with that connection taken out. */
  lemma {:induction false} WithoutAppended<C>(s: seq<C>, x: C)
    ensures Without(s + [x], x) == Without(s, x)
  {
    if s == [] {
      assert [x][1..] == [];
    } else {
      assert (s + [x])[1..] == s[1..] + [x];
      WithoutAppended(s[1..], x);
    }
  }

  /** `pop` keeps the remaining keys in their relative order: taking `x` out
      of two consecutive stretches of the order is taking it out of each. */
  lemma {:induction false} WithoutConcat<C>(s: seq<C>, t: seq<C>, x: C)
    ensures Without(s + t, x) == Without(s, x) + Without(t, x)
  {
    if s == [] {
      assert s + t == t;
    } else {
      assert (s + t)[1..] == s[1..] + t;
      WithoutConcat(s[1..], t, x);
    }
  }

  /** Taking an element out of a sequence without repetitions keeps it
      without repetitions. */
  lemma {:induction false} WithoutDistinct<C>(s: seq<C>, x: C)
    requires Distinct(s)
    ensures Distinct(Without(s, x))
  {
    if s != [] {
      assert Distinct(s[1..]);
      WithoutDistinct(s[1..], x);
      assert s[0] !in s[1..];
    }
  }

  /** Filtering a sequence without repetitions keeps it without repetitions. */
  lemma {:induction false} SubscribersDistinct<C>(entries: seq<C>, conns: map<C, set<string>>, channel: string)
    requires Distinct(entries)
    ensures Distinct(Subscribers(entries, conns, channel))
  {
    if entries != [] {
      var init := entries[..|entries| - 1];
      assert Distinct(init);
      SubscribersDistinct(init, conns, channel);
      SubscribersMembers(init, conns, channel, entries[|entries| - 1]);
      assert entries[|entries| - 1] !in init;
    }
  }

  /** Over the registry's own key order, the subscribers listed are exactly
      the subscriber set, each once. */
  lemma SubscribersMatchSet<C>(order: seq<C>, conns: map<C, set<string>>, channel: string)
    requires Inv(order, conns)
    ensures Distinct(Subscribers(order, conns, channel))
    ensures |Subscribers(order, conns, channel)| == |SubscriberSet(conns, channel)|
  {
    var subs := Subscribers(order, conns, channel);
    SubscribersDistinct(order, conns, channel);
    DistinctCard(subs);
    var members := set c | c in subs;
    var subscribed := SubscriberSet(conns, channel);
    forall c | c in members
      ensures c in subscribed
    {
      SubscribersMembers(order, conns, channel, c);
    }
    forall c | c in subscribed
      ensures c in members
    {
      SubscribersMembers(order, conns, channel, c);
    }
    assert members == subscribed;
  }

  /** The number of connections the registry holds is the length of its key
      order. */
  lemma KeyCount<C>(order: seq<C>, conns: map<C, set<string>>)
    requires Inv(order, conns)
    ensures |conns| == |order|
  {
    DistinctCard(order);
    assert (set c | c in order) == conns.Keys;
  }

  /** No channel has more subscribers than there are connections. */
  lemma SubscriberCountBound<C>(order: seq<C>, conns: map<C, set<string>>, channel: string)
    requires Inv(order, conns)
    ensures |SubscriberSet(conns, channel)| <= |conns|
  {
    SubscribersMatchSet(order, conns, channel);
    KeyCount(order, conns);
  }
}
