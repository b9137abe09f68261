/**
  The in-memory connection registry and broadcast engine of the WebSocket
  test server. One object holds, for every live connection, the set of
  channels it subscribes to; the per-connection handler changes that state
  as control frames arrive, and a broadcast fans one message out to the
  connections subscribed to its channel.

  Connections are opaque values of the type parameter `C`. Every block the
  server runs under its lock is one method here, run as a single step.
  Transport failures are inputs: `failing` names the connections whose send
  (or close) raises.
 */
module Backend {
  import opened Protocol
  import opened Registry

  /** What one frame did to the handler's read loop: go on reading, or stop
      because indexing the registry raised `KeyError` (the connection was no
      longer registered). */
  datatype FrameOutcome = Continue | KeyMissing

  /** One send attempted by a broadcast, and whether it went through. */
  datatype Attempt<C> = Attempt(to: C, message: Message, delivered: bool)

  /** One close attempted at shutdown, and whether it went through. */
  datatype Closing<C> = Closing(conn: C, closed: bool)

  /** How the inbound stream of a connection ended: the client disconnected,
      or reading the next frame raised some other error. */
  datatype StreamEnd = Disconnect | ReadError

  /** How the per-connection handler left: normally, or by propagating an
      exception after its cleanup ran. */
  datatype Exit = Returned | Raised(error: HandlerError)
  datatype HandlerError = ReadFailed | KeyErrorRaised

  /** Whether the backend's `close()` runs during a connection's session:
      not at all, or just before frame `k` is handled (`k` equal to the
      number of frames: after the last one, before the stream ends). */
  datatype Shutdown = NoShutdown | CloseBefore(k: nat)

  /** The shutdown has run once the handler has got past frame `n`. */
  predicate ShutdownRuns(shutdown: Shutdown, n: int) {
    shutdown.CloseBefore? && shutdown.k <= n
  }

  /** Among the first `n` frames, one at or after the shutdown holds a list,
      so indexing the emptied registry raised `KeyError` there. */
  predicate KeyErrorWithin(frames: seq<Frame>, shutdown: Shutdown, n: nat) {
    shutdown.CloseBefore?
    && exists j :: shutdown.k <= j < n && j < |frames| && HoldsList(frames[j])
  }

  class BroadcastBackend<C(==)> {
    /** Each live connection and the channels it subscribes to. */
    var conns: map<C, set<string>>
    /** The keys of `conns` in insertion order, which is the order the
        dictionary's `items()` and `keys()` produce. */
    var order: seq<C>

    ghost predicate Valid()
      reads this
    {
      Inv(order, conns)
    }

    /** A fresh backend holds no connection. */
    constructor ()
      ensures Valid()
      ensures conns == map[] && order == []
    {
      conns := map[];
      order := [];
    }

    /** On accept: store the connection with an empty subscription set. A key
        already present keeps its position and has its set reset. */
    method Register(ws: C)
      requires Valid()
      modifies this
      ensures Valid()
      ensures conns == old(conns)[ws := {}]
      ensures order == if ws in old(conns) then old(order) else old(order) + [ws]
      ensures ws !in old(conns) ==> |conns| == |old(conns)| + 1
      ensures forall c :: c in old(conns) && c != ws ==> c in conns && conns[c] == old(conns)[c]
    {
      if ws !in conns {
        order := order + [ws];
      }
      conns := conns[ws := {}];
    }

    /** One control frame: a list under "subscribe" is added to the
        connection's set, then a list under "unsubscribe" is removed from it;
        a value that is not a list is skipped. Indexing the registry for a
        connection that is no longer there raises `KeyError`, which ends the
        read loop with the registry unchanged. */
    method HandleFrame(ws: C, f: Frame) returns (outcome: FrameOutcome)
      requires Valid()
      modifies this
      ensures Valid() && order == old(order)
      ensures outcome == KeyMissing <==> ws !in old(conns) && HoldsList(f)
      ensures conns == if ws in old(conns) then old(conns)[ws := ApplyFrame(old(conns)[ws], f)] else old(conns)
    {
      outcome := Continue;
      if f.subscribe.List? {
        if ws !in conns {
          outcome := KeyMissing;
          return;
        }
        conns := conns[ws := Subscribe(conns[ws], f.subscribe.names)];
      }
      if f.unsubscribe.List? {
        if ws !in conns {
          outcome := KeyMissing;
          return;
        }
        conns := conns[ws := Unsubscribe(conns[ws], f.unsubscribe.names)];
      }
    }

    /** Cleanup: `pop(ws, None)`, which does nothing when `ws` is absent. */
    method Unregister(ws: C)
      requires Valid()
      modifies this
      ensures Valid()
      ensures conns == old(conns) - {ws}
      ensures order == Without(old(order), ws)
      ensures ws !in old(conns) ==> conns == old(conns) && order == old(order)
    {
      WithoutDistinct(order, ws);
      if ws !in order {
        WithoutAbsent(order, ws);
      }
      conns := conns - {ws};
      order := Without(order, ws);
    }

    /** The handler of one connection: register it, apply the inbound frames
        in order until the stream ends or indexing the registry raises
        `KeyError`, and unregister it in `finally` on every exit path.
        `shutdown` says whether the backend's `Close` runs while the handler
        is alive, and before which frame. After such a close the first frame
        holding a list raises `KeyError`; frames without a list are read on.
        Afterwards the registry is as before less `ws`, or empty when the
        close ran. */
    method Serve(ws: C, frames: seq<Frame>, end: StreamEnd, shutdown: Shutdown, failing: set<C>)
      returns (exit: Exit)
      requires Valid()
      modifies this
      ensures Valid()
      ensures ShutdownRuns(shutdown, |frames|) ==> conns == map[] && order == []
      ensures !ShutdownRuns(shutdown, |frames|) ==>
        conns == old(conns) - {ws} && order == Without(old(order), ws)
      ensures exit == if KeyErrorWithin(frames, shutdown, |frames|) then Raised(KeyErrorRaised)
                      else if end == Disconnect then Returned
                      else Raised(ReadFailed)
    {
      ghost var before := conns;
      Register(ws);
      UpdateThenRemove(before, ws, {});
      ghost var registered := order;
      var i := 0;
      var reading := true;
      while i < |frames| && reading
        invariant Valid() && 0 <= i <= |frames|
        invariant !ShutdownRuns(shutdown, i - 1) ==>
          ws in conns && order == registered && conns - {ws} == before - {ws}
        invariant ShutdownRuns(shutdown, i - 1) ==> conns == map[] && order == []
        invariant reading == !KeyErrorWithin(frames, shutdown, i)
      {
        if shutdown == CloseBefore(i) {
          var _ := Close(failing);
        }
        ghost var prev := conns;
        var outcome := HandleFrame(ws, frames[i]);
        if ws in prev {
          UpdateThenRemove(prev, ws, conns[ws]);
        }
        reading := outcome == Continue;
        i := i + 1;
      }
      assert !reading ==> KeyErrorWithin(frames, shutdown, |frames|);
      if reading && shutdown == CloseBefore(|frames|) {
        var _ := Close(failing);
      }
      Unregister(ws);
      if ws !in before {
        WithoutAppended(old(order), ws);
      }
      exit := if !reading then Raised(KeyErrorRaised)
              else if end == Disconnect then Returned
              else Raised(ReadFailed);
    }

    /** Publish: build the message once, then, over a copy of the entries
        taken in order, attempt a send to every connection whose set holds
        `channel`; a failed send is swallowed and the loop goes on. The
        registry is read, never changed. */
    method Broadcast(channel: string, eventType: string, payload: Payload, failing: set<C>)
      returns (message: Message, attempts: seq<Attempt<C>>)
      requires Valid()
      ensures message == Message(channel, eventType, payload)
      ensures var subs := Subscribers(order, conns, channel);
        && |attempts| == |subs|
        && forall k :: 0 <= k < |attempts| ==>
             attempts[k] == Attempt(subs[k], message, subs[k] !in failing)
    {
      message := Message(channel, eventType, payload);
      var entries := order;
      attempts := [];
      var i := 0;
      while i < |entries|
        invariant 0 <= i <= |entries|
        invariant |attempts| == |Subscribers(entries[..i], conns, channel)|
        invariant forall k :: 0 <= k < |attempts| ==>
          attempts[k] == Attempt(Subscribers(entries[..i], conns, channel)[k], message,
                                 Subscribers(entries[..i], conns, channel)[k] !in failing)
      {
        SubscribersStep(entries, i, conns, channel);
        var ws := entries[i];
        if channel in conns[ws] {
          var delivered := ws !in failing;
          attempts := attempts + [Attempt(ws, message, delivered)];
        }
        i := i + 1;
      }
      assert entries[..i] == entries;
    }

    /** The number of registered connections whose set holds `channel`,
        counted over the dictionary's values. */
    method SubscriberCount(channel: string) returns (count: nat)
      requires Valid()
      ensures count == |SubscriberSet(conns, channel)|
      ensures count <= |conns|
    {
      count := 0;
      var i := 0;
      while i < |order|
        invariant 0 <= i <= |order|
        invariant count == |Subscribers(order[..i], conns, channel)|
      {
        SubscribersStep(order, i, conns, channel);
        if channel in conns[order[i]] {
          count := count + 1;
        }
        i := i + 1;
      }
      assert order[..i] == order;
      SubscribersMatchSet(order, conns, channel);
      SubscriberCountBound(order, conns, channel);
    }

    /** The number of registered connections. */
    function TotalConnections(): (n: nat)
      reads this
      requires Valid()
      ensures n == |order|
    {
      KeyCount(order, conns);
      |conns|
    }

    /** Shutdown: attempt to close every connection, in order, swallowing
        failures, then empty the registry. */
    method Close(failing: set<C>) returns (attempts: seq<Closing<C>>)
      requires Valid()
      modifies this
      ensures Valid()
      ensures conns == map[] && order == []
      ensures TotalConnections() == 0
      ensures |attempts| == |old(order)|
      ensures forall k :: 0 <= k < |attempts| ==>
        attempts[k] == Closing(old(order)[k], old(order)[k] !in failing)
    {
      var keys := order;
      attempts := [];
      var i := 0;
      while i < |keys|
        invariant 0 <= i <= |keys|
        invariant |attempts| == i
        invariant forall k :: 0 <= k < i ==> attempts[k] == Closing(keys[k], keys[k] !in failing)
      {
        var closed := keys[i] !in failing;
        attempts := attempts + [Closing(keys[i], closed)];
        i := i + 1;
      }
      conns := map[];
      order := [];
    }
  }
}
