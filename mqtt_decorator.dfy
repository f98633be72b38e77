/** The MQTT bookkeeping of an `EdgeAgent` (MqttDecorator.py): the registry
    of confirmed subscriptions, the `connected` flag, the optional connect
    and disconnect handlers, and the calls made on the paho client. */
module MqttDecorator {
  import opened Prelude
  import opened Paho

  /** The record stored for each subscribed topic. MqttDecorator.py uses
      `TopicQos(topic, qos)` and reads `.topic` and `.qos` from it, but neither
      defines nor imports it; the model assumes the usual `(topic, qos)` record. */
  datatype TopicQos = TopicQos(topic: string, qos: int)

  predicate Distinct(s: seq<string>)
  {
    forall i, j :: 0 <= i < j < |s| ==> s[i] != s[j]
  }

  /** `s` with every occurrence of `x` taken out, the rest in order. */
  function Without(s: seq<string>, x: string): (r: seq<string>)
    ensures forall y :: y in r <==> y in s && y != x
    ensures Distinct(s) ==> Distinct(r)
  {
    if s == [] then []
    else if s[0] == x then Without(s[1..], x)
    else
      var rest := Without(s[1..], x);
      assert Distinct(s) ==> Distinct(s[1..]) && s[0] !in rest by {
        if Distinct(s) {
          assert forall j :: 0 < j < |s| ==> s[0] != s[j];
        }
      }
      [s[0]] + rest
  }

  /** A distinct sequence has as many elements as its set. */
  lemma {:induction false} DistinctCardinality(s: seq<string>)
    requires Distinct(s)
    ensures |set x | x in s| == |s|
  {
    if s != [] {
      DistinctCardinality(s[1..]);
      assert (set x | x in s) == {s[0]} + (set x | x in s[1..]);
      assert s[0] !in s[1..];
    }
  }

  /** The `topics` dictionary. Python dictionaries iterate in insertion
      order, so the keys are kept in `order`; overwriting a key keeps its
      place, removing it and inserting it again moves it to the end. */
  datatype Registry = Registry(order: seq<string>, entries: map<string, TopicQos>) {

    /** The order holds each key once, and each entry is stored under its
        own topic (MqttDecorator.py:102 stores `TopicQos(topic=topic, ...)`
        under `topic`). */
    ghost predicate Valid()
    {
      && Distinct(order)
      && (forall t :: t in entries <==> t in order)
      && (forall t :: t in entries ==> entries[t].topic == t)
    }

    /** `topics[topic] = TopicQos(topic=topic, qos=qos)` */
    function Put(topic: string, qos: int): (r: Registry)
      requires Valid()
      ensures r.Valid()
      ensures r.entries == entries[topic := TopicQos(topic, qos)]
      ensures r.order == if topic in entries then order else order + [topic]
    {
      if topic in entries then Registry(order, entries[topic := TopicQos(topic, qos)])
      else Registry(order + [topic], entries[topic := TopicQos(topic, qos)])
    }

    /** `topics.pop(topic)` */
    function Remove(topic: string): (r: Registry)
      requires Valid()
      ensures r.Valid()
      ensures r.entries == entries - {topic}
      ensures r.order == Without(order, topic)
    {
      Registry(Without(order, topic), entries - {topic})
    }
  }

  const EmptyRegistry := Registry([], map[])

  /** The subscribe calls `_handle_connect` issues for a registry: one per
      entry, in iteration order, with the stored topic and qos. */
  function Resubscriptions(reg: Registry): seq<ClientCall>
    requires reg.Valid()
  {
    seq(|reg.order|, i requires 0 <= i < |reg.order| =>
      Paho.Subscribe(reg.entries[reg.order[i]].topic, reg.entries[reg.order[i]].qos))
  }

  /** Replaying a registry subscribes to exactly its entries, each exactly
      once and with its stored qos. */
  lemma ReplayExactlyOnce(reg: Registry)
    requires reg.Valid()
    ensures |Resubscriptions(reg)| == |reg.entries|
    ensures forall c: ClientCall :: c in Resubscriptions(reg) <==>
      c.Subscribe? && c.topic in reg.entries && reg.entries[c.topic].qos == c.qos
  {
    var r := Resubscriptions(reg);
    DistinctCardinality(reg.order);
    assert reg.entries.Keys == set x | x in reg.order;
    forall c: ClientCall | c.Subscribe? && c.topic in reg.entries && reg.entries[c.topic].qos == c.qos
      ensures c in r
    {
      var i :| 0 <= i < |reg.order| && reg.order[i] == c.topic;
      assert r[i] == c;
    }
  }

  /** A topic subscribed last with qos `q` is replayed with `q` and with no
      other qos (last write wins). */
  lemma ReplayUsesLatestQos(reg: Registry, topic: string, q: int)
    requires reg.Valid()
    ensures Paho.Subscribe(topic, q) in Resubscriptions(reg.Put(topic, q))
    ensures forall q' :: q' != q ==> Paho.Subscribe(topic, q') !in Resubscriptions(reg.Put(topic, q))
  {
    ReplayExactlyOnce(reg.Put(topic, q));
  }

  /** A topic removed from the registry is not replayed. */
  lemma RemovedTopicNotReplayed(reg: Registry, topic: string)
    requires reg.Valid()
    ensures forall q :: Paho.Subscribe(topic, q) !in Resubscriptions(reg.Remove(topic))
  {
    ReplayExactlyOnce(reg.Remove(topic));
  }

  /** What `unsubscribe_all` leaves: each key of `ks` in turn is removed when
      the transport's reply to its unsubscribe, `results[i]`, is a success. */
  function AfterUnsubscribes(reg: Registry, ks: seq<string>, results: seq<int>): (r: Registry)
    requires reg.Valid() && |results| == |ks|
    ensures r.Valid()
    decreases |ks|
  {
    if ks == [] then reg
    else
      var prev := AfterUnsubscribes(reg, ks[..|ks| - 1], results[..|ks| - 1]);
      if results[|ks| - 1] == MQTT_ERR_SUCCESS then prev.Remove(ks[|ks| - 1]) else prev
  }

  /** One more unsubscribe: the step `unsubscribe_all` takes for key `i`. */
  lemma AfterUnsubscribesStep(reg: Registry, ks: seq<string>, results: seq<int>, i: nat)
    requires reg.Valid() && |results| == |ks| && i < |ks|
    ensures AfterUnsubscribes(reg, ks[..i + 1], results[..i + 1]) ==
      var prev := AfterUnsubscribes(reg, ks[..i], results[..i]);
      if results[i] == MQTT_ERR_SUCCESS then prev.Remove(ks[i]) else prev
  {
    assert ks[..i + 1][..i] == ks[..i];
    assert results[..i + 1][..i] == results[..i];
  }

  /** The keys of `ks` the transport confirmed. */
  function Confirmed(ks: seq<string>, results: seq<int>): set<string>
    requires |results| == |ks|
  {
    set i | 0 <= i < |ks| && results[i] == MQTT_ERR_SUCCESS :: ks[i]
  }

  /** Unsubscribing removes exactly the confirmed keys and keeps every other
      entry as it was. */
  lemma {:induction false} AfterUnsubscribesRemovesConfirmed(reg: Registry, ks: seq<string>, results: seq<int>)
    requires reg.Valid() && |results| == |ks|
    ensures AfterUnsubscribes(reg, ks, results).entries == reg.entries - Confirmed(ks, results)
    decreases |ks|
  {
    if ks != [] {
      var n := |ks| - 1;
      AfterUnsubscribesRemovesConfirmed(reg, ks[..n], results[..n]);
      var c, c' := Confirmed(ks, results), Confirmed(ks[..n], results[..n]);
      if results[n] == MQTT_ERR_SUCCESS {
        assert c == c' + {ks[n]};
      } else {
        assert c == c';
      }
    }
  }

  /** While `unsubscribe_all` walks its snapshot of the keys, the key it is
      about to unsubscribe is still tracked. */
  lemma StillTracked(reg: Registry, results: seq<int>, i: nat)
    requires reg.Valid() && |results| == |reg.order| && i < |reg.order|
    ensures reg.order[i] in AfterUnsubscribes(reg, reg.order[..i], results[..i]).entries
  {
    AfterUnsubscribesRemovesConfirmed(reg, reg.order[..i], results[..i]);
    assert reg.order[i] !in Confirmed(reg.order[..i], results[..i]);
  }

  /** After `unsubscribe_all` the registry holds exactly the topics whose
      unsubscribe failed, each with its entry unchanged. */
  lemma UnsubscribeAllKeepsFailures(reg: Registry, results: seq<int>)
    requires reg.Valid() && |results| == |reg.order|
    ensures forall t :: t in AfterUnsubscribes(reg, reg.order, results).entries <==>
      exists i :: 0 <= i < |reg.order| && reg.order[i] == t && results[i] != MQTT_ERR_SUCCESS
    ensures forall t :: t in AfterUnsubscribes(reg, reg.order, results).entries ==>
      AfterUnsubscribes(reg, reg.order, results).entries[t] == reg.entries[t]
  {
    AfterUnsubscribesRemovesConfirmed(reg, reg.order, results);
  }

  /** What happened, in order: a call made on the client, or a user handler
      invoked. The reply to the call at position `p` is `transport(p, call)`. */
  datatype Event =
    | Sent(call: ClientCall)
    | ConnectHandlerRan(handler: Handler, rc: int)
    | DisconnectHandlerRan(handler: Handler)

  function Sends(calls: seq<ClientCall>): (r: seq<Event>)
    ensures |r| == |calls|
  {
    seq(|calls|, i requires 0 <= i < |calls| => Sent(calls[i]))
  }

  lemma SendsAppend(a: seq<ClientCall>, c: ClientCall)
    ensures Sends(a + [c]) == Sends(a) + [Sent(c)]
  {
    assert forall i :: 0 <= i < |a| ==> Sends(a + [c])[i] == Sent(a[i]);
  }

  lemma SendsConcat(a: seq<ClientCall>, b: seq<ClientCall>)
    ensures Sends(a + b) == Sends(a) + Sends(b)
  {
    assert forall i :: 0 <= i < |a| ==> Sends(a + b)[i] == Sent(a[i]);
    assert forall i :: |a| <= i < |a| + |b| ==> Sends(a + b)[i] == Sent(b[i - |a|]);
  }

  function UnsubscribeCalls(ks: seq<string>): (r: seq<ClientCall>)
    ensures |r| == |ks|
  {
    seq(|ks|, i requires 0 <= i < |ks| => Paho.Unsubscribe(ks[i]))
  }

  /** The MQTT state of an `EdgeAgent`. `EdgeAgent` inherits its MQTT
      methods from `MqttDecorator`; here both are one class. */
  class Agent {
    var topics: Registry
    var connected: bool
    var connectHandler: Option<Handler>
    var disconnectHandler: Option<Handler>
    /** Every call made on the client and every handler run, in order. */
    var trace: seq<Event>
    /** The paho client's replies. */
    const transport: Oracle

    ghost predicate Valid()
      reads this
    {
      topics.Valid()
    }

    /** The fields `EdgeAgent.__init__` sets before `_init_app`. */
    constructor (transport: Oracle)
      ensures Valid()
      ensures topics == EmptyRegistry && !connected
      ensures connectHandler == None && disconnectHandler == None
      ensures trace == [] && this.transport == transport
    {
      connectHandler := None;
      disconnectHandler := None;
      topics := EmptyRegistry;
      connected := false;
      trace := [];
      this.transport := transport;
    }

    /** The replies the transport gives to the unsubscribes of `ks` made one
        after the other from position `start`. */
    function UnsubscribeResults(start: nat, ks: seq<string>): (r: seq<int>)
      ensures |r| == |ks|
    {
      seq(|ks|, i requires 0 <= i < |ks| => transport(start + i, Paho.Unsubscribe(ks[i])).result)
    }

    /** One call on the client; returns the client's reply. */
    method Send(c: ClientCall) returns (r: Reply)
      modifies this
      ensures trace == old(trace) + [Sent(c)]
      ensures r == transport(|old(trace)|, c)
      ensures topics == old(topics) && connected == old(connected)
      ensures connectHandler == old(connectHandler) && disconnectHandler == old(disconnectHandler)
    {
      r := transport(|trace|, c);
      trace := trace + [Sent(c)];
    }

    /** paho's on_connect callback. On an accepted connection every tracked
        subscription is sent again; the registry itself is not touched. The
        user's connect handler runs afterwards whatever `rc` is. */
    method HandleConnect(rc: int)
      requires Valid()
      modifies this
      ensures Valid() && topics == old(topics)
      ensures connected == (rc == MQTT_ERR_SUCCESS || old(connected))
      ensures connectHandler == old(connectHandler) && disconnectHandler == old(disconnectHandler)
      ensures trace == old(trace)
        + (if rc == MQTT_ERR_SUCCESS then Sends(Resubscriptions(topics)) else [])
        + (if connectHandler.Some? then [ConnectHandlerRan(connectHandler.value, rc)] else [])
    {
      if rc == MQTT_ERR_SUCCESS {
        connected := true;
        ghost var replay := Resubscriptions(topics);
        var i := 0;
        while i < |topics.order|
          invariant 0 <= i <= |topics.order| == |replay|
          invariant topics == old(topics) && connected
          invariant connectHandler == old(connectHandler) && disconnectHandler == old(disconnectHandler)
          invariant trace == old(trace) + Sends(replay[..i])
        {
          var item := topics.entries[topics.order[i]];
          var _ := Send(Paho.Subscribe(item.topic, item.qos));
          assert replay[..i + 1] == replay[..i] + [replay[i]];
          SendsAppend(replay[..i], replay[i]);
          i := i + 1;
        }
        assert replay[..i] == replay;
      }
      if connectHandler.Some? {
        trace := trace + [ConnectHandlerRan(connectHandler.value, rc)];
      }
    }

    /** paho's on_disconnect callback: `connected` drops, the registry is
        kept, then the user's disconnect handler runs. */
    method HandleDisconnect(rc: int)
      modifies this
      ensures !connected && topics == old(topics)
      ensures connectHandler == old(connectHandler) && disconnectHandler == old(disconnectHandler)
      ensures trace == old(trace)
        + (if disconnectHandler.Some? then [DisconnectHandlerRan(disconnectHandler.value)] else [])
    {
      connected := false;
      if disconnectHandler.Some? {
        trace := trace + [DisconnectHandlerRan(disconnectHandler.value)];
      }
    }

    /** Subscribe through the transport; remember the topic only when the
        transport reports success. The transport's reply is returned as is. */
    method Subscribe(topic: string, qos: int) returns (result: int, mid: Option<int>)
      requires Valid()
      modifies this
      ensures Valid()
      ensures trace == old(trace) + [Sent(Paho.Subscribe(topic, qos))]
      ensures Reply(result, mid) == transport(|old(trace)|, Paho.Subscribe(topic, qos))
      ensures topics == if result == MQTT_ERR_SUCCESS then old(topics).Put(topic, qos) else old(topics)
      ensures connected == old(connected)
      ensures connectHandler == old(connectHandler) && disconnectHandler == old(disconnectHandler)
    {
      var r := Send(Paho.Subscribe(topic, qos));
      result, mid := r.result, r.mid;
      if result == MQTT_ERR_SUCCESS {
        topics := topics.Put(topic, qos);
      }
    }

    /** Unsubscribe a tracked topic; forget it only when the transport reports
        success. An untracked topic gives `None` and no call is made. */
    method Unsubscribe(topic: string) returns (r: Option<Reply>)
      requires Valid()
      modifies this
      ensures Valid()
      ensures topic !in old(topics.entries) ==>
        r == None && trace == old(trace) && topics == old(topics)
      ensures topic in old(topics.entries) ==>
        && trace == old(trace) + [Sent(Paho.Unsubscribe(topic))]
        && r == Some(transport(|old(trace)|, Paho.Unsubscribe(topic)))
        && topics == if r.value.result == MQTT_ERR_SUCCESS then old(topics).Remove(topic) else old(topics)
      ensures connected == old(connected)
      ensures connectHandler == old(connectHandler) && disconnectHandler == old(disconnectHandler)
    {
      if topic in topics.entries {
        var reply := Send(Paho.Unsubscribe(topic));
        if reply.result == MQTT_ERR_SUCCESS {
          topics := topics.Remove(topic);
        }
        return Some(reply);
      }
      return None;
    }

    /** Unsubscribe every topic tracked at the start, each exactly once, in
        iteration order. Afterwards the registry holds exactly the topics
        whose unsubscribe failed (see UnsubscribeAllKeepsFailures). */
    method UnsubscribeAll()
      requires Valid()
      modifies this
      ensures Valid()
      ensures trace == old(trace) + Sends(UnsubscribeCalls(old(topics.order)))
      ensures topics == AfterUnsubscribes(old(topics), old(topics.order),
                                          UnsubscribeResults(|old(trace)|, old(topics.order)))
      ensures connected == old(connected)
      ensures connectHandler == old(connectHandler) && disconnectHandler == old(disconnectHandler)
    {
      var ks := topics.order;
      ghost var start := |trace|;
      ghost var results := UnsubscribeResults(start, ks);
      ghost var calls := UnsubscribeCalls(ks);
      var i := 0;
      while i < |ks|
        invariant 0 <= i <= |ks|
        invariant Valid()
        invariant trace == old(trace) + Sends(calls[..i])
        invariant topics == AfterUnsubscribes(old(topics), ks[..i], results[..i])
        invariant connected == old(connected)
        invariant connectHandler == old(connectHandler) && disconnectHandler == old(disconnectHandler)
      {
        UnsubscribeNext(ks, old(topics), start, i);
        assert calls[..i + 1] == calls[..i] + [calls[i]];
        SendsAppend(calls[..i], calls[i]);
        i := i + 1;
      }
      assert ks[..i] == ks && results[..i] == results && calls[..i] == calls;
    }

    /** The body of `unsubscribe_all`'s loop for the `i`-th key of the
        snapshot `ks` of the keys of `reg`, taken when the loop began at
        position `start` of the history. */
    method UnsubscribeNext(ks: seq<string>, ghost reg: Registry, ghost start: nat, i: nat)
      requires Valid() && reg.Valid() && ks == reg.order && i < |ks| && |trace| == start + i
      requires topics == AfterUnsubscribes(reg, reg.order[..i], UnsubscribeResults(start, reg.order)[..i])
      modifies this
      ensures Valid()
      ensures trace == old(trace) + [Sent(Paho.Unsubscribe(reg.order[i]))]
      ensures topics == AfterUnsubscribes(reg, reg.order[..i + 1], UnsubscribeResults(start, reg.order)[..i + 1])
      ensures connected == old(connected)
      ensures connectHandler == old(connectHandler) && disconnectHandler == old(disconnectHandler)
    {
      ghost var results := UnsubscribeResults(start, reg.order);
      ghost var prev := topics;
      StillTracked(reg, results, i);
      var r := Unsubscribe(ks[i]);
      assert r.Some? && r.value.result == results[i];
      assert topics == if results[i] == MQTT_ERR_SUCCESS then prev.Remove(ks[i]) else prev;
      AfterUnsubscribesStep(reg, reg.order, results, i);
    }

    /** Publish; when not connected, ask the client to reconnect first. The
        transport's reply is returned as is. */
    method Publish(topic: string, payload: Value, qos: int, retain: bool) returns (result: int, mid: Option<int>)
      modifies this
      ensures trace == old(trace)
        + (if old(connected) then [] else [Sent(Reconnect)])
        + [Sent(Paho.Publish(topic, payload, qos, retain))]
      ensures Reply(result, mid) == transport(|trace| - 1, Paho.Publish(topic, payload, qos, retain))
      ensures topics == old(topics) && connected == old(connected)
      ensures connectHandler == old(connectHandler) && disconnectHandler == old(disconnectHandler)
    {
      if !connected {
        var _ := Send(Reconnect);
      }
      var r := Send(Paho.Publish(topic, payload, qos, retain));
      result, mid := r.result, r.mid;
    }

    /** `@on_connect()`: the last registered handler wins. */
    method OnConnect(handler: Handler)
      modifies this
      ensures connectHandler == Some(handler) && disconnectHandler == old(disconnectHandler)
      ensures topics == old(topics) && connected == old(connected) && trace == old(trace)
    {
      connectHandler := Some(handler);
    }

    /** `@on_disconnect()`: the last registered handler wins. */
    method OnDisconnect(handler: Handler)
      modifies this
      ensures disconnectHandler == Some(handler) && connectHandler == old(connectHandler)
      ensures topics == old(topics) && connected == old(connected) && trace == old(trace)
    {
      disconnectHandler := Some(handler);
    }

    /** `@on_topic(filter)`: hands the handler to the client for that filter;
        the registry is not touched (the topic must still be subscribed). */
    method OnTopic(filter: string, handler: Handler)
      modifies this
      ensures trace == old(trace) + [Sent(MessageCallbackAdd(filter, handler))]
      ensures topics == old(topics) && connected == old(connected)
      ensures connectHandler == old(connectHandler) && disconnectHandler == old(disconnectHandler)
    {
      var _ := Send(MessageCallbackAdd(filter, handler));
    }

    /** `@on_message()`, `@on_publish()`, `@on_subscribe()`,
        `@on_unsubscribe()`, `@on_log()`: set the client's callback
        attribute, nothing else. */
    method SetClientCallback(slot: CallbackSlot, handler: Handler)
      modifies this
      ensures trace == old(trace) + [Sent(SetCallback(slot, handler))]
      ensures topics == old(topics) && connected == old(connected)
      ensures connectHandler == old(connectHandler) && disconnectHandler == old(disconnectHandler)
    {
      var _ := Send(SetCallback(slot, handler));
    }
  }

  /** A disconnect followed by an accepted connect replays exactly the
      registry as it stood at the disconnect, after the disconnect handler
      and before the connect handler. */
  method DisconnectThenReconnect(agent: Agent, rc: int)
    requires agent.Valid()
    modifies agent
    ensures agent.Valid() && agent.connected && agent.topics == old(agent.topics)
    ensures agent.trace == old(agent.trace)
      + (if agent.disconnectHandler.Some? then [DisconnectHandlerRan(agent.disconnectHandler.value)] else [])
      + Sends(Resubscriptions(old(agent.topics)))
      + (if agent.connectHandler.Some? then [ConnectHandlerRan(agent.connectHandler.value, MQTT_ERR_SUCCESS)] else [])
  {
    agent.HandleDisconnect(rc);
    agent.HandleConnect(MQTT_ERR_SUCCESS);
  }
}
