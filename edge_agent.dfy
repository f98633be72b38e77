/** An `EdgeAgent` (EdgeAgent.py): how the flat configuration dictionary
    becomes the agent's connection settings, and which calls construction,
    `run` and `stop` make on the paho client. */
module EdgeAgent {
  import opened Prelude
  import opened Paho
  import opened MqttDecorator

  type Config = map<string, Value>

  /** The exception `_init_app` raises: `config[key]` on a missing key. */
  datatype ConfigError = KeyError(key: string)

  datatype TlsSettings = TlsSettings(
    caCerts: Value, certfile: Value, keyfile: Value,
    certReqs: Value, version: Value, ciphers: Value, insecure: Value)

  /** The attributes `_init_app` sets; `tls` is present only when TLS is
      enabled, as the `tls_*` attributes are only set then. */
  datatype Settings = Settings(
    clientId: Value, transport: Value,
    username: Value, password: Value,
    brokerUrl: Value, brokerPort: Value,
    tlsEnabled: Value, keepalive: Value,
    reconnectDelay: Value, reconnectDelayMax: Value,
    lastWillTopic: Value, lastWillMessage: Value, lastWillQos: Value, lastWillRetain: Value,
    tls: Option<TlsSettings>)

  const CLIENT_ID := "MQTT_CLIENT_ID"
  const TRANSPORT := "MQTT_TRANSPORT"
  const USERNAME := "MQTT_USERNAME"
  const PASSWORD := "MQTT_PASSWORD"
  const BROKER_URL := "MQTT_BROKER_URL"
  const BROKER_PORT := "MQTT_BROKER_PORT"
  const TLS_ENABLED := "MQTT_TLS_ENABLED"
  const KEEPALIVE := "MQTT_KEEPALIVE"
  const RECONNECT_DELAY := "MQTT_RECONNECT_DELAY"
  const RECONNECT_DELAY_MAX := "MQTT_RECONNECT_DELAY_MAX"
  const LAST_WILL_TOPIC := "MQTT_LAST_WILL_TOPIC"
  const LAST_WILL_MESSAGE := "MQTT_LAST_WILL_MESSAGE"
  const LAST_WILL_QOS := "MQTT_LAST_WILL_QOS"
  const LAST_WILL_RETAIN := "MQTT_LAST_WILL_RETAIN"
  const TLS_CA_CERTS := "MQTT_TLS_CA_CERTS"
  const TLS_CERTFILE := "MQTT_TLS_CERTFILE"
  const TLS_KEYFILE := "MQTT_TLS_KEYFILE"
  const TLS_CERT_REQS := "MQTT_TLS_CERT_REQS"
  const TLS_VERSION := "MQTT_TLS_VERSION"
  const TLS_CIPHERS := "MQTT_TLS_CIPHERS"
  const TLS_INSECURE := "MQTT_TLS_INSECURE"

  const CERT_REQUIRED := Symbol("ssl.CERT_REQUIRED")
  const PROTOCOL_TLSv1 := Symbol("ssl.PROTOCOL_TLSv1")

  /** `config.get(key, default)`; `config.get(key)` is `Get(config, key, Nil)`. */
  function Get(config: Config, key: string, default: Value): Value
  {
    if key in config then config[key] else default
  }

  /** `_init_app`: every setting is looked up with its default; the TLS
      settings only when TLS is enabled, and then `MQTT_TLS_CA_CERTS` must be
      present. */
  function InitApp(config: Config): (r: Result<Settings, ConfigError>)
    ensures r.Failure? <==> Truthy(Get(config, TLS_ENABLED, Bool(false))) && TLS_CA_CERTS !in config
    ensures r.Failure? ==> r.error == KeyError(TLS_CA_CERTS)
    ensures r.Success? ==> (r.value.tls.Some? <==> Truthy(r.value.tlsEnabled))
    ensures r.Success? && r.value.tls.Some? ==>
      TLS_CA_CERTS in config && r.value.tls.value.caCerts == config[TLS_CA_CERTS]
  {
    var tlsEnabled := Get(config, TLS_ENABLED, Bool(false));
    if Truthy(tlsEnabled) && TLS_CA_CERTS !in config then
      Failure(KeyError(TLS_CA_CERTS))
    else
      var tls :=
        if Truthy(tlsEnabled) then
          Some(TlsSettings(
            config[TLS_CA_CERTS],
            Get(config, TLS_CERTFILE, Nil),
            Get(config, TLS_KEYFILE, Nil),
            Get(config, TLS_CERT_REQS, CERT_REQUIRED),
            Get(config, TLS_VERSION, PROTOCOL_TLSv1),
            Get(config, TLS_CIPHERS, Nil),
            Get(config, TLS_INSECURE, Bool(false))))
        else None;
      Success(Settings(
        Get(config, CLIENT_ID, Str("")),
        Get(config, TRANSPORT, Str("tcp")),
        Get(config, USERNAME, Nil),
        Get(config, PASSWORD, Nil),
        Get(config, BROKER_URL, Str("localhost")),
        Get(config, BROKER_PORT, Int(1883)),
        tlsEnabled,
        Get(config, KEEPALIVE, Int(60)),
        Get(config, RECONNECT_DELAY, Real(0.1)),
        Get(config, RECONNECT_DELAY_MAX, Int(60)),
        Get(config, LAST_WILL_TOPIC, Nil),
        Get(config, LAST_WILL_MESSAGE, Nil),
        Get(config, LAST_WILL_QOS, Int(0)),
        Get(config, LAST_WILL_RETAIN, Bool(false)),
        tls))
  }

  /** With no configuration at all, every setting takes its default. */
  lemma EmptyConfigDefaults()
    ensures InitApp(map[]) == Success(Settings(
      Str(""), Str("tcp"), Nil, Nil, Str("localhost"), Int(1883), Bool(false), Int(60),
      Real(0.1), Int(60), Nil, Nil, Int(0), Bool(false), None))
  {
  }

  /** A key present in the configuration wins over the default even when its
      value is falsy (`.get` only falls back on absent keys). */
  lemma PresentKeyWins(config: Config)
    requires InitApp(config).Success?
    ensures var s := InitApp(config).value;
      && (CLIENT_ID in config ==> s.clientId == config[CLIENT_ID])
      && (TRANSPORT in config ==> s.transport == config[TRANSPORT])
      && (USERNAME in config ==> s.username == config[USERNAME])
      && (PASSWORD in config ==> s.password == config[PASSWORD])
      && (BROKER_URL in config ==> s.brokerUrl == config[BROKER_URL])
      && (BROKER_PORT in config ==> s.brokerPort == config[BROKER_PORT])
      && (TLS_ENABLED in config ==> s.tlsEnabled == config[TLS_ENABLED])
      && (KEEPALIVE in config ==> s.keepalive == config[KEEPALIVE])
      && (RECONNECT_DELAY in config ==> s.reconnectDelay == config[RECONNECT_DELAY])
      && (RECONNECT_DELAY_MAX in config ==> s.reconnectDelayMax == config[RECONNECT_DELAY_MAX])
      && (LAST_WILL_TOPIC in config ==> s.lastWillTopic == config[LAST_WILL_TOPIC])
      && (LAST_WILL_MESSAGE in config ==> s.lastWillMessage == config[LAST_WILL_MESSAGE])
      && (LAST_WILL_QOS in config ==> s.lastWillQos == config[LAST_WILL_QOS])
      && (LAST_WILL_RETAIN in config ==> s.lastWillRetain == config[LAST_WILL_RETAIN])
    ensures var s := InitApp(config).value;
      s.tls.Some? ==>
      && (TLS_CA_CERTS in config ==> s.tls.value.caCerts == config[TLS_CA_CERTS])
      && (TLS_CERTFILE in config ==> s.tls.value.certfile == config[TLS_CERTFILE])
      && (TLS_KEYFILE in config ==> s.tls.value.keyfile == config[TLS_KEYFILE])
      && (TLS_CERT_REQS in config ==> s.tls.value.certReqs == config[TLS_CERT_REQS])
      && (TLS_VERSION in config ==> s.tls.value.version == config[TLS_VERSION])
      && (TLS_CIPHERS in config ==> s.tls.value.ciphers == config[TLS_CIPHERS])
      && (TLS_INSECURE in config ==> s.tls.value.insecure == config[TLS_INSECURE])
  {
  }

  /** A key absent from the configuration takes its default, whatever else
      the configuration holds; `config.get(key)` defaults to `None`. */
  lemma AbsentKeyDefaults(config: Config)
    requires InitApp(config).Success?
    ensures var s := InitApp(config).value;
      && (CLIENT_ID !in config ==> s.clientId == Str(""))
      && (TRANSPORT !in config ==> s.transport == Str("tcp"))
      && (USERNAME !in config ==> s.username == Nil)
      && (PASSWORD !in config ==> s.password == Nil)
      && (BROKER_URL !in config ==> s.brokerUrl == Str("localhost"))
      && (BROKER_PORT !in config ==> s.brokerPort == Int(1883))
      && (TLS_ENABLED !in config ==> s.tlsEnabled == Bool(false) && s.tls.None?)
      && (KEEPALIVE !in config ==> s.keepalive == Int(60))
      && (RECONNECT_DELAY !in config ==> s.reconnectDelay == Real(0.1))
      && (RECONNECT_DELAY_MAX !in config ==> s.reconnectDelayMax == Int(60))
      && (LAST_WILL_TOPIC !in config ==> s.lastWillTopic == Nil)
      && (LAST_WILL_MESSAGE !in config ==> s.lastWillMessage == Nil)
      && (LAST_WILL_QOS !in config ==> s.lastWillQos == Int(0))
      && (LAST_WILL_RETAIN !in config ==> s.lastWillRetain == Bool(false))
    ensures var s := InitApp(config).value;
      s.tls.Some? ==>
      && (TLS_CERTFILE !in config ==> s.tls.value.certfile == Nil)
      && (TLS_KEYFILE !in config ==> s.tls.value.keyfile == Nil)
      && (TLS_CERT_REQS !in config ==> s.tls.value.certReqs == CERT_REQUIRED)
      && (TLS_VERSION !in config ==> s.tls.value.version == PROTOCOL_TLSv1)
      && (TLS_CIPHERS !in config ==> s.tls.value.ciphers == Nil)
      && (TLS_INSECURE !in config ==> s.tls.value.insecure == Bool(false) && !Truthy(s.tls.value.insecure))
  {
  }

  /** The calls construction makes on the client: the client itself, then,
      once the settings resolved, the last will when a will topic is set.
      A failed construction stops before the last will. */
  function InitCalls(config: Config): seq<ClientCall>
  {
    [New(Get(config, CLIENT_ID, Str("")), true, Get(config, TRANSPORT, Str("tcp")))]
    + match InitApp(config)
      case Failure(_) => []
      case Success(s) =>
        if s.lastWillTopic != Nil
        then [WillSet(s.lastWillTopic, s.lastWillMessage, s.lastWillQos, s.lastWillRetain)]
        else []
  }

  /** The last will is registered exactly when a will topic is configured
      (and construction succeeds), with the configured message, qos and
      retain flag; construction never connects. */
  lemma LastWillIffTopic(config: Config)
    ensures forall c :: c in InitCalls(config) ==> !c.Connect?
    ensures InitApp(config).Success? ==>
      var s := InitApp(config).value;
      (exists c :: c in InitCalls(config) && c.WillSet?) <==> s.lastWillTopic != Nil
    ensures InitApp(config).Failure? ==> forall c :: c in InitCalls(config) ==> !c.WillSet?
    ensures forall c :: c in InitCalls(config) && c.WillSet? ==>
      && LAST_WILL_TOPIC in config && c.willTopic == config[LAST_WILL_TOPIC]
      && c.willPayload == Get(config, LAST_WILL_MESSAGE, Nil)
      && c.willQos == Get(config, LAST_WILL_QOS, Int(0))
      && c.willRetain == Get(config, LAST_WILL_RETAIN, Bool(false))
  {
    var s := InitApp(config);
    if s.Success? && s.value.lastWillTopic != Nil {
      assert InitCalls(config)[1].WillSet?;
    }
  }

  /** The calls `run` makes on the client, in order: credentials, TLS set-up,
      then the connection itself. */
  function RunCalls(s: Settings): seq<ClientCall>
  {
    CredentialCalls(s) + TlsCalls(s) + ConnectCalls(s)
  }

  function CredentialCalls(s: Settings): seq<ClientCall>
  {
    if s.username != Nil then [UsernamePwSet(s.username, s.password)] else []
  }

  function TlsCalls(s: Settings): seq<ClientCall>
  {
    match s.tls
    case None => []
    case Some(t) =>
      [TlsSet(t.caCerts, t.certfile, t.keyfile, t.certReqs, t.version, t.ciphers)]
      + (if Truthy(t.insecure) then [TlsInsecureSet(t.insecure)] else [])
  }

  function ConnectCalls(s: Settings): seq<ClientCall>
  {
    [ReconnectDelaySet(s.reconnectDelay, s.reconnectDelayMax),
     Connect(s.brokerUrl, s.brokerPort, s.keepalive),
     EnableLogger,
     LoopStart]
  }

  /** Credentials are set exactly when a username is configured, TLS is set
      up exactly when enabled, insecure mode exactly when enabled and
      truthy; the reconnect delays are set before the one connect call. */
  lemma RunCallConditions(s: Settings)
    ensures UsernamePwSet(s.username, s.password) in RunCalls(s) <==> s.username != Nil
    ensures forall c :: c in RunCalls(s) && c.UsernamePwSet? ==> c == UsernamePwSet(s.username, s.password)
    ensures (exists c :: c in RunCalls(s) && c.TlsSet?) <==> s.tls.Some?
    ensures (exists c :: c in RunCalls(s) && c.TlsInsecureSet?) <==> s.tls.Some? && Truthy(s.tls.value.insecure)
    ensures exists i, j :: (
      && 0 <= i < j < |RunCalls(s)|
      && RunCalls(s)[i] == ReconnectDelaySet(s.reconnectDelay, s.reconnectDelayMax)
      && RunCalls(s)[j] == Connect(s.brokerUrl, s.brokerPort, s.keepalive)
      && (forall k :: 0 <= k < |RunCalls(s)| && RunCalls(s)[k].Connect? ==> k == j))
  {
    var calls := RunCalls(s);
    var n := |calls|;
    if s.tls.Some? {
      assert calls[if s.username != Nil then 1 else 0].TlsSet?;
      if Truthy(s.tls.value.insecure) {
        assert calls[if s.username != Nil then 2 else 1].TlsInsecureSet?;
      }
    }
    assert calls[n - 4] == ReconnectDelaySet(s.reconnectDelay, s.reconnectDelayMax);
    assert calls[n - 3] == Connect(s.brokerUrl, s.brokerPort, s.keepalive);
  }

  /** `EdgeAgent(config, events, gui)`: the initial fields, then
      `_init_app`. On a missing CA bundle the result is the `KeyError` and
      no connection was attempted. */
  method NewAgent(config: Config, transport: Oracle) returns (agent: Agent, settings: Result<Settings, ConfigError>)
    ensures fresh(agent) && agent.Valid() && agent.transport == transport
    ensures agent.topics == EmptyRegistry && !agent.connected
    ensures agent.connectHandler == None && agent.disconnectHandler == None
    ensures settings == InitApp(config)
    ensures agent.trace == Sends(InitCalls(config))
  {
    agent := new Agent(transport);
    var _ := agent.Send(New(Get(config, CLIENT_ID, Str("")), true, Get(config, TRANSPORT, Str("tcp"))));
    settings := InitApp(config);
    if settings.Success? && settings.value.lastWillTopic != Nil {
      var s := settings.value;
      var _ := agent.Send(WillSet(s.lastWillTopic, s.lastWillMessage, s.lastWillQos, s.lastWillRetain));
    }
  }

  /** `run`, up to starting the client's network loop; returns the reply to
      the connect call. */
  method Run(agent: Agent, s: Settings) returns (res: Reply)
    modifies agent
    ensures agent.trace == old(agent.trace) + Sends(RunCalls(s))
    ensures res == agent.transport(|agent.trace| - 3, Connect(s.brokerUrl, s.brokerPort, s.keepalive))
    ensures agent.topics == old(agent.topics) && agent.connected == old(agent.connected)
    ensures agent.connectHandler == old(agent.connectHandler)
    ensures agent.disconnectHandler == old(agent.disconnectHandler)
  {
    SetUpSession(agent, s);
    res := ConnectAndLoop(agent, s);
    SendsConcat(CredentialCalls(s) + TlsCalls(s), ConnectCalls(s));
  }

  /** The part of `run` before connecting: credentials, then TLS. */
  method SetUpSession(agent: Agent, s: Settings)
    modifies agent
    ensures agent.trace == old(agent.trace) + Sends(CredentialCalls(s) + TlsCalls(s))
    ensures agent.topics == old(agent.topics) && agent.connected == old(agent.connected)
    ensures agent.connectHandler == old(agent.connectHandler)
    ensures agent.disconnectHandler == old(agent.disconnectHandler)
  {
    ghost var t0 := agent.trace;
    ghost var calls: seq<ClientCall> := [];
    if s.username != Nil {
      SendLogged(agent, t0, calls, UsernamePwSet(s.username, s.password));
      calls := calls + [UsernamePwSet(s.username, s.password)];
    }
    assert calls == CredentialCalls(s);
    if s.tls.Some? {
      var t := s.tls.value;
      SendLogged(agent, t0, calls, TlsSet(t.caCerts, t.certfile, t.keyfile, t.certReqs, t.version, t.ciphers));
      calls := calls + [TlsSet(t.caCerts, t.certfile, t.keyfile, t.certReqs, t.version, t.ciphers)];
      if Truthy(t.insecure) {
        SendLogged(agent, t0, calls, TlsInsecureSet(t.insecure));
        calls := calls + [TlsInsecureSet(t.insecure)];
      }
    }
    assert calls == CredentialCalls(s) + TlsCalls(s);
  }

  /** The part of `run` that connects and starts the network loop; returns
      the reply to the connect call. */
  method ConnectAndLoop(agent: Agent, s: Settings) returns (res: Reply)
    modifies agent
    ensures agent.trace == old(agent.trace) + Sends(ConnectCalls(s))
    ensures res == agent.transport(|old(agent.trace)| + 1, Connect(s.brokerUrl, s.brokerPort, s.keepalive))
    ensures agent.topics == old(agent.topics) && agent.connected == old(agent.connected)
    ensures agent.connectHandler == old(agent.connectHandler)
    ensures agent.disconnectHandler == old(agent.disconnectHandler)
  {
    var _ := agent.Send(ReconnectDelaySet(s.reconnectDelay, s.reconnectDelayMax));
    res := agent.Send(Connect(s.brokerUrl, s.brokerPort, s.keepalive));
    var _ := agent.Send(EnableLogger);
    var _ := agent.Send(LoopStart);
    assert Sends(ConnectCalls(s)) == [Sent(ConnectCalls(s)[0]), Sent(ConnectCalls(s)[1]),
                                      Sent(ConnectCalls(s)[2]), Sent(ConnectCalls(s)[3])];
  }

  /** One call of `run`, keeping track of the calls made since `run` began. */
  method SendLogged(agent: Agent, ghost t0: seq<Event>, ghost calls: seq<ClientCall>, c: ClientCall)
    requires agent.trace == t0 + Sends(calls)
    modifies agent
    ensures agent.trace == t0 + Sends(calls + [c])
    ensures agent.topics == old(agent.topics) && agent.connected == old(agent.connected)
    ensures agent.connectHandler == old(agent.connectHandler)
    ensures agent.disconnectHandler == old(agent.disconnectHandler)
  {
    var _ := agent.Send(c);
    SendsAppend(calls, c);
  }

  /** `stop`: stop the network loop, then disconnect. */
  method Stop(agent: Agent)
    modifies agent
    ensures agent.trace == old(agent.trace) + [Sent(LoopStop), Sent(Disconnect)]
    ensures agent.topics == old(agent.topics) && agent.connected == old(agent.connected)
    ensures agent.connectHandler == old(agent.connectHandler)
    ensures agent.disconnectHandler == old(agent.disconnectHandler)
  {
    var _ := agent.Send(LoopStop);
    var _ := agent.Send(Disconnect);
  }
}
