/** The paho MQTT `Client`, seen from outside: the calls the program makes on
    it, and an oracle that gives the reply to each call. Nothing of paho's
    inner working (wire format, sockets, its network loop) is modelled. */
module Paho {
  import opened Prelude

  /** paho's `MQTT_ERR_SUCCESS`; also the CONNACK return code "connection
      accepted" (section 3.2.2.3 of MQTT 3.1.1). */
  const MQTT_ERR_SUCCESS: int := 0

  /** paho's `(result, mid)` pair; `mid` is `None` when the client is not
      connected. */
  datatype Reply = Reply(result: int, mid: Option<int>)

  /** The callback attributes of a paho client that the decorators assign. */
  datatype CallbackSlot = OnMessage | OnPublish | OnSubscribe | OnUnsubscribe | OnLog

  /** Every call the program makes on the client, with its arguments. */
  datatype ClientCall =
    | New(clientId: Value, cleanSession: bool, transport: Value)
    | Subscribe(topic: string, qos: int)
    | Unsubscribe(topic: string)
    | Publish(topic: string, payload: Value, qos: int, retain: bool)
    | Reconnect
    | WillSet(willTopic: Value, willPayload: Value, willQos: Value, willRetain: Value)
    | UsernamePwSet(username: Value, password: Value)
    | TlsSet(caCerts: Value, certfile: Value, keyfile: Value, certReqs: Value, tlsVersion: Value, ciphers: Value)
    | TlsInsecureSet(insecure: Value)
    | ReconnectDelaySet(minDelay: Value, maxDelay: Value)
    | Connect(host: Value, port: Value, keepalive: Value)
    | EnableLogger
    | LoopStart
    | LoopStop
    | Disconnect
    | MessageCallbackAdd(filter: string, handler: Handler)
    | SetCallback(slot: CallbackSlot, handler: Handler)

  /** The client's behaviour: the reply to the call made at position `p` of
      the program's history. Every proof about the program holds for every
      oracle, that is, for every reply the client may give. */
  type Oracle = (nat, ClientCall) -> Reply
}
