/** The periodic application events (Common/Events.py): a fixed list of
    event names, the interval registered for each, and the handler each
    name fires. */
module Events {
  import opened Prelude

  const HEARTBEAT := "heartbeat"
  const DATA_RECOVER := "dataRecover"

  /** Reading an attribute that was never set, such as the handler of an
      event that was never registered: Python raises `AttributeError`. */
  datatype FireError = AttributeError(attribute: string)

  class PeriodicEvents {
    var interval: map<string, real>
    var eventNames: seq<string>
    var heartbeatHandler: Option<Handler>
    var dataRecoverHandler: Option<Handler>
    /** The handlers run so far, in order. */
    var fired: seq<Handler>

    /** `init`: no interval registered, the two event names in order. */
    constructor ()
      ensures interval == map[] && eventNames == [HEARTBEAT, DATA_RECOVER]
      ensures heartbeatHandler == None && dataRecoverHandler == None
      ensures fired == []
    {
      interval := map[];
      eventNames := [HEARTBEAT, DATA_RECOVER];
      heartbeatHandler := None;
      dataRecoverHandler := None;
      fired := [];
    }

    /** `@Heartbeat(interval=i)` applied to `func`: the last registration
        wins; the data-recovery entry is untouched. */
    method Heartbeat(i: real, func: Handler)
      modifies this
      ensures interval == old(interval)[HEARTBEAT := i]
      ensures heartbeatHandler == Some(func) && dataRecoverHandler == old(dataRecoverHandler)
      ensures eventNames == old(eventNames) && fired == old(fired)
    {
      heartbeatHandler := Some(func);
      interval := interval[HEARTBEAT := i];
    }

    /** `@DataRecover(interval=i)` applied to `func`: the last registration
        wins; the heartbeat entry is untouched. */
    method DataRecover(i: real, func: Handler)
      modifies this
      ensures interval == old(interval)[DATA_RECOVER := i]
      ensures dataRecoverHandler == Some(func) && heartbeatHandler == old(heartbeatHandler)
      ensures eventNames == old(eventNames) && fired == old(fired)
    {
      dataRecoverHandler := Some(func);
      interval := interval[DATA_RECOVER := i];
    }

    /** The `heartbeat` event: runs exactly the registered handler, or fails
        when none was registered. */
    method FireHeartbeat() returns (err: Option<FireError>)
      modifies this
      ensures err.None? <==> heartbeatHandler.Some?
      ensures err.Some? ==> err.value == AttributeError("_heartbeat")
      ensures fired == old(fired) + (if heartbeatHandler.Some? then [heartbeatHandler.value] else [])
      ensures interval == old(interval) && eventNames == old(eventNames)
      ensures heartbeatHandler == old(heartbeatHandler) && dataRecoverHandler == old(dataRecoverHandler)
    {
      match heartbeatHandler
      case None =>
        err := Some(AttributeError("_heartbeat"));
      case Some(h) =>
        fired := fired + [h];
        err := None;
    }

    /** The `dataRecover` event: runs exactly the registered handler, or
        fails when none was registered. */
    method FireDataRecover() returns (err: Option<FireError>)
      modifies this
      ensures err.None? <==> dataRecoverHandler.Some?
      ensures err.Some? ==> err.value == AttributeError("_dataRecover")
      ensures fired == old(fired) + (if dataRecoverHandler.Some? then [dataRecoverHandler.value] else [])
      ensures interval == old(interval) && eventNames == old(eventNames)
      ensures heartbeatHandler == old(heartbeatHandler) && dataRecoverHandler == old(dataRecoverHandler)
    {
      match dataRecoverHandler
      case None =>
        err := Some(AttributeError("_dataRecover"));
      case Some(h) =>
        fired := fired + [h];
        err := None;
    }
  }
}
