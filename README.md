# MQTT-Python edge agent, modelled in Dafny

This project models the edge agent of MQTT-Python. The agent is an MQTT client that:

- remembers the topics it has subscribed to and subscribes to them again after every accepted (re)connection;
- turns a flat configuration dictionary into connection, TLS and last-will settings;
- drives the periodic application events (`heartbeat`, `dataRecover`) from timers;
- may refresh a small status window.

The paho MQTT client sits underneath and is modelled as an oracle.

- `Paho.ClientCall` lists every call the agent makes on the client.
- An `Oracle` gives the client's reply to the call at each position of the agent's history.
- A contract that holds for every oracle therefore holds for every reply the client can return. A client call that raises instead of replying is not modelled (see "## Left out").

The agent keeps one history (`trace`) of client calls and user-handler runs. This lets the contracts state ordering, such as "the subscriptions are replayed before the connect handler runs".

Files and modules:

- `prelude.dfy` (`Prelude`): `Option`, `Result`, the identity of a Python callable (`Handler`), and Python values with their truthiness (`Value`, `Truthy`).
- `paho.dfy` (`Paho`): the client calls, the replies and `MQTT_ERR_SUCCESS`.
- `mqtt_decorator.dfy` (`MqttDecorator`) covers MqttDecorator.py. `EdgeAgent` inherits its MQTT methods from this mixin, and `EdgeAgent.__init__` creates the state they use. So the state and the methods live in one class, `Agent`.
  - The subscription dictionary is a `Registry`. It keeps insertion order, as a Python `dict` does.
  - The `connected` flag and the two optional handlers are fields of `Agent`.
- `edge_agent.dfy` (`EdgeAgent`) covers EdgeAgent.py.
  - `_init_app` is the pure function `InitApp`, which returns the settings or the `KeyError` it raises.
  - The calls that construction, `run` and `stop` make are appended to the agent's history.
- `events.dfy` (`Events`): the periodic events of Common/Events.py.
- `event_engine.dfy` (`EventEngine`): the scheduler of Common/EventEngine.py. Its timers are objects that are registered or not.
- `gui.dfy` (`Gui`): the bookkeeping in gui.py.
  - The key-dependent dictionary of callbacks.
  - The merged window configuration.
  - The button commands.
  - The update step.

Behaviour worth knowing:

- `subscribe` always sends the subscribe to the client, whether or not the agent is connected. It records the topic only when the client reports `MQTT_ERR_SUCCESS`. A subscription the client rejects is therefore not replayed on reconnect.
- `unsubscribe` of a tracked topic always sends the unsubscribe. It forgets the topic only on success. A topic that was never tracked gives `None` and sends nothing.
- `unsubscribe_all` goes through a snapshot of the keys in insertion order. Failed unsubscribes stay tracked.
- The GUI tick is registered by the scheduler but not kept in `timers`. So `stop_timers`/`start_timers` never touch it.
- Registering a timer is modelled as a flag. Starting timers that are already running therefore leaves exactly one registration per timer.
- A periodic event fired with no handler registered fails with `AttributeError`. The repository does not catch it. The circuits dispatcher turns a handler's exception into an `exception` event, and the timers keep running.

## Model

| member | source | states |
|---|---|---|
| MqttDecorator.Registry.Put | MqttDecorator.py:101-102 | storing `TopicQos(topic, qos)` under `topic` overwrites that entry only. A new key goes to the end of the iteration order and an existing key keeps its place. The registry stays well formed. |
| MqttDecorator.Registry.Remove | MqttDecorator.py:130-131 | `pop(topic)` removes exactly that entry. The remaining keys keep their relative order. The registry stays well formed. |
| MqttDecorator.ReplayExactlyOnce | MqttDecorator.py:33-36 | the subscribe calls made on connection are one per tracked topic. They are exactly the tracked topics, each with its stored qos. |
| MqttDecorator.ReplayUsesLatestQos | MqttDecorator.py:98-102 | after a confirmed subscribe with qos `q`, the topic is replayed with `q` and with no other qos (last write wins). |
| MqttDecorator.RemovedTopicNotReplayed | MqttDecorator.py:127-131 | a topic removed by a confirmed unsubscribe is not subscribed to again on reconnect. |
| MqttDecorator.AfterUnsubscribesRemovesConfirmed | MqttDecorator.py:141-146 | unsubscribing a list of keys removes exactly the keys whose unsubscribe the client confirmed. Every other entry stays as it was. |
| MqttDecorator.UnsubscribeAllKeepsFailures | MqttDecorator.py:141-146 | after `unsubscribe_all`, a topic is still tracked iff its unsubscribe failed. Its entry is unchanged. |
| MqttDecorator.Agent.constructor | EdgeAgent.py:12-16 | a new agent has no handlers, an empty registry, is not connected, and has made no call. |
| MqttDecorator.Agent.HandleConnect | MqttDecorator.py:31-38 | on `rc == MQTT_ERR_SUCCESS` the agent becomes connected and sends one subscribe per tracked topic, in iteration order, with the stored qos. The user's connect handler runs afterwards, whatever `rc` is. The registry is unchanged. |
| MqttDecorator.Agent.HandleDisconnect | MqttDecorator.py:40-44 | `connected` becomes false and the registry is kept. Then the disconnect handler runs, if one is set. |
| MqttDecorator.Agent.Subscribe | MqttDecorator.py:72-109 | exactly one subscribe call is sent. The client's reply is returned. The topic is recorded with its qos iff the reply is `MQTT_ERR_SUCCESS`. |
| MqttDecorator.Agent.Unsubscribe | MqttDecorator.py:111-139 | an untracked topic gives `None` and sends nothing. A tracked topic sends one unsubscribe and returns the reply. The topic is forgotten iff the reply is a success. |
| MqttDecorator.Agent.UnsubscribeAll | MqttDecorator.py:141-146 | one unsubscribe is sent per key tracked at the start, in iteration order. The registry ends as the start registry with the confirmed keys removed. |
| MqttDecorator.Agent.Publish | MqttDecorator.py:148-177 | when not connected, a reconnect is requested first. The publish is sent with its topic, payload, qos and retain. The publish reply is returned. Nothing else changes. |
| MqttDecorator.Agent.OnConnect | MqttDecorator.py:179-190 | the connect handler becomes the given one (the last registration wins). Nothing else changes. |
| MqttDecorator.Agent.OnDisconnect | MqttDecorator.py:192-203 | the disconnect handler becomes the given one (the last registration wins). Nothing else changes. |
| MqttDecorator.Agent.OnTopic | MqttDecorator.py:65-70 | the handler is handed to the client for that filter. The registry is not touched. |
| MqttDecorator.Agent.SetClientCallback | MqttDecorator.py:205-290 | `on_message`, `on_publish`, `on_subscribe`, `on_unsubscribe` and `on_log` only set the client's callback. |
| MqttDecorator.DisconnectThenReconnect | MqttDecorator.py:31-44 | across a disconnect and an accepted reconnect, the registry survives. The disconnect handler runs, then exactly the old registry is replayed, then the connect handler runs. |
| EdgeAgent.InitApp | EdgeAgent.py:23-55 | `_init_app` fails iff TLS is enabled (truthy) and `MQTT_TLS_CA_CERTS` is missing, and then with `KeyError` on that key. TLS settings exist iff TLS is enabled, and carry the configured CA bundle. |
| EdgeAgent.EmptyConfigDefaults | EdgeAgent.py:24-44 | an empty configuration gives the defaults: `""`, `tcp`, `localhost`, 1883, TLS off, keepalive 60, delays 0.1 and 60, will qos 0, will retain false. |
| EdgeAgent.PresentKeyWins | EdgeAgent.py:24-55 | for every one of the 21 configuration keys, a present key's value becomes the setting, even when that value is falsy. The TLS keys apply when TLS is on. |
| EdgeAgent.AbsentKeyDefaults | EdgeAgent.py:24-55 | for any configuration, every absent key takes its default. An absent TLS switch means no TLS settings. With TLS on, the certificate requirement defaults to `ssl.CERT_REQUIRED`, the version to `ssl.PROTOCOL_TLSv1`, and insecure mode to off. |
| EdgeAgent.LastWillIffTopic | EdgeAgent.py:46-64 | construction sets a last will iff a will topic is configured and construction succeeds. A construction that fails with the `KeyError` sets no will. The will carries the configured message, qos and retain. Construction never connects. |
| EdgeAgent.RunCallConditions | EdgeAgent.py:68-104 | `run` sets credentials iff a username is configured. It sets up TLS iff TLS is enabled, and insecure mode iff it is also truthy. It connects exactly once, after setting the reconnect delays. |
| EdgeAgent.NewAgent | EdgeAgent.py:10-64 | a new agent has the initial state and the settings of `_init_app`. Its history is the client creation, then the last will when one applies. |
| EdgeAgent.Run | EdgeAgent.py:68-104 | the history grows by the calls of `run` in order: credentials, TLS, delays, connect, logger, loop start. The connect reply is returned. |
| EdgeAgent.Stop | EdgeAgent.py:112-116 | `stop` stops the network loop, then disconnects. |
| Events.PeriodicEvents.constructor | Common/Events.py:9-11 | no interval is registered. The event names are `heartbeat`, then `dataRecover`. |
| Events.PeriodicEvents.Heartbeat | Common/Events.py:14-22 | registering a heartbeat sets its handler and interval (the last one wins). The data-recovery entry is untouched. |
| Events.PeriodicEvents.DataRecover | Common/Events.py:30-38 | registering data recovery sets its handler and interval (the last one wins). The heartbeat entry is untouched. |
| Events.PeriodicEvents.FireHeartbeat | Common/Events.py:24-26 | firing runs exactly the registered heartbeat handler, or fails with `AttributeError` when none was registered. |
| Events.PeriodicEvents.FireDataRecover | Common/Events.py:40-42 | firing runs exactly the registered data-recovery handler, or fails with `AttributeError` when none was registered. |
| EventEngine.SelectTimers | Common/EventEngine.py:29-30 | every selected timer is for a listed event with a registered, nonzero interval, and carries that interval. There are at most as many timers as names. |
| EventEngine.SelectedIff | Common/EventEngine.py:29-30 | an event gets a timer iff it is listed and its interval is present and truthy. |
| EventEngine.SelectPreservesOrder | Common/EventEngine.py:29-30 | timers come in the order of the event names: selection distributes over concatenation. |
| EventEngine.HeartbeatOnly | Common/EventEngine.py:29-30 | with only a heartbeat interval registered, exactly one timer is created: the heartbeat's. |
| EventEngine.Scheduler.constructor | Common/EventEngine.py:24-34 | `init` creates one persistent, registered timer per selected event, in order. With a GUI it also registers a separate 0.01 s `update_gui` tick. |
| EventEngine.Scheduler.StopTimers | Common/EventEngine.py:14-17 | every listed timer is unregistered. The GUI tick is untouched. |
| EventEngine.Scheduler.StartTimers | Common/EventEngine.py:19-22 | every listed timer is registered. The GUI tick is untouched. |
| EventEngine.StopThenStart | Common/EventEngine.py:14-22 | stop then start brings back the same timers, with the same intervals and events, all registered. |
| EventEngine.Scheduler.UpdateGui | Common/EventEngine.py:32-38 | with a GUI, the window's update step runs once, and its configuration and update callback stay as they were. Without a GUI, `self.gui` was never set, so the result is `AttributeError`. |
| EventEngine.Scheduler.Dispatch | Common/EventEngine.py:13-38 | an event name runs the handler of that name. `heartbeat` and `dataRecover` fire their registered handler, or report `AttributeError` on `_heartbeat` or `_dataRecover`. `stop_timers` unregisters every listed timer and `start_timers` registers them all. `update_gui` runs the window's update step, or reports `AttributeError` when there is no GUI. Any other name changes nothing. Timers are touched only by `stop_timers`/`start_timers`, and the GUI tick never. The intervals, the event handlers, and the window's configuration and update callback are unchanged. |
| Gui.KeyDependentDict.constructor | gui.py:10-12 | a new dictionary is empty, keeps the given factory, and has not called it. |
| Gui.KeyDependentDict.Lookup | gui.py:9-16 | a present key returns its value and changes nothing. A missing key calls the factory once on that key, installs the result and returns it. |
| Gui.KeyDependentDict.Store | gui.py:45 | assignment overwrites that one entry without calling the factory. |
| Gui.LookupTwice | gui.py:13-16 | two lookups of a key agree, and the factory runs at most once. |
| Gui.MergeConfig | gui.py:20-26 | the merged configuration holds the caller's keys plus `TITLE` and `GEOMETRY`. The caller's values win. The defaults are `MQTT` and `580x240`. |
| Gui.TkinterGUI.constructor | gui.py:19-38 | the configuration is the merge. The callback dictionary starts empty, and its factory is `_dummy_event_handler`: for any name it builds the not-implemented stub of that name. No update callback is set. |
| Gui.TkinterGUI.Resolve | gui.py:27-38 | looking up any event name gives the registered callback, or else the not-implemented stub for that same name. The stub is installed under the name, and the factory is called only for a name not yet in the dictionary. |
| Gui.TkinterGUI.OnEvent | gui.py:40-46 | registering a callback overwrites the entry for that event name only. |
| Gui.TkinterGUI.OnUpdate | gui.py:87-94 | the update callback becomes the given one (the last registration wins). |
| Gui.TkinterGUI.ButtonCommands | gui.py:64-71 | each button gets the callback registered for its name, or the not-implemented stub for that name. Each stub is installed under its name, and the factory is called once for each missing name, in button order. Other entries are unchanged. |
| Gui.TkinterGUI.Update | gui.py:81-85 | the update callback, when one is set, runs before the window is refreshed. |

## Left out

- MqttDecorator.Agent.HandleConnect, HandleDisconnect, Events.PeriodicEvents.FireHeartbeat, FireDataRecover and Gui.TkinterGUI.Update record a user handler's run as one opaque event. What the handler does is not modelled. Calls it makes on the client do not enter the history; main.py's connect handler, for example, subscribes to `$SYS/#`. A handler that calls the agent's own `subscribe`/`unsubscribe` would change `topics`, which these contracts state as unchanged.
- MqttDecorator.Agent.Subscribe, MqttDecorator.Agent.Publish, Gui.TkinterGUI.constructor, EventEngine.Scheduler.constructor and EdgeAgent.NewAgent take every argument explicitly. The Python defaults are left to the caller: `qos=0`; `payload=None`, `qos=0`, `retain=False`; `config={}`; `gui=None` for the scheduler. `EdgeAgent`'s `events` and `gui` arguments (default `None`) are only stored for `run`'s scheduler, which is not modelled.
- MqttDecorator.Agent.Publish, MqttDecorator.Agent.Subscribe, EdgeAgent.Run and EdgeAgent.NewAgent model every client call as returning a reply, never raising. The model therefore does not capture these exceptions of paho's client:
  - `reconnect()` in `publish` and `connect()` in `run` raise a socket error when the broker cannot be reached. `publish` then sends no publish, and `run` stops before `enable_logger` and `loop_start`.
  - `subscribe` raises `ValueError` on a qos outside 0–2 or an empty topic, so such a topic is never recorded.
  - `will_set` raises `ValueError` on an empty will topic or a qos outside 0–2, so construction fails.
  - `Client(transport=...)` raises `ValueError` on a transport other than `tcp` or `websockets`.
- MqttDecorator.py uses `TopicQos` without defining or importing it. The model assumes the usual `(topic, qos)` record, which `MqttDecorator.TopicQos` stands for.
- The paho client's internals, its reconnect backoff, and delivering messages to `on_topic`/`on_message` handlers (wildcard matching included). The client is an oracle of replies.
- Setting `client.on_connect`/`on_disconnect` in `_init_app`. `HandleConnect`/`HandleDisconnect` are the handlers the client would call.
- The concurrency between paho's network thread and the scheduler's timers. Every operation is modelled as atomic.
- `run`'s last two steps, `gui.init()` and `Scheduler(...).run()`. The scheduler is modelled on its own in `EventEngine`. Its run loop blocks forever on the circuits runtime and is not modelled.
- Timers firing over real time. A timer is only its interval, its event and whether it is registered.
- `events.register(self)` and the `started` handler of the scheduler. Both are circuits plumbing, and `started` only logs.
- The Tk widgets: `init`'s window, labels and status variables, `_exit_handler`, `on_exit` and `root.update()` itself. `Update` records a refresh instead.
- The not-implemented stub's logging. `NotImplemented(name)` stands for it.
- All logging, and main.py, which wires the parts together.
- Intervals are modelled as real numbers. A non-numeric interval value, which Python would also accept, is not modelled.
