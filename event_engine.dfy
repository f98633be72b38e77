/** The scheduler (Common/EventEngine.py): one persistent timer per event
    that has a truthy interval, in the order of the event names, which
    `stop_timers` and `start_timers` unregister and register as a whole; and
    the separate GUI tick. Time itself is not modelled: a timer is its
    interval, its event name and whether it is registered. */
module EventEngine {
  import opened Prelude
  import opened Events
  import opened Gui

  /** The interval of the GUI refresh tick, and the event it fires. */
  const GUI_TICK: real := 0.01
  const UPDATE_GUI := "update_gui"

  /** The names of the scheduler's own events. */
  const STOP_TIMERS := "stop_timers"
  const START_TIMERS := "start_timers"

  /** What a timer is built from: its interval and the event it fires. */
  datatype TimerSpec = TimerSpec(interval: real, event: string)

  /** The list comprehension of `init`: a timer for each name, in order,
      whose interval is present and truthy. */
  function SelectTimers(names: seq<string>, interval: map<string, real>): (r: seq<TimerSpec>)
    ensures |r| <= |names|
    ensures forall t :: t in r ==>
      t.event in names && t.event in interval && t.interval == interval[t.event] && t.interval != 0.0
  {
    if names == [] then []
    else
      var rest := SelectTimers(names[1..], interval);
      if names[0] in interval && interval[names[0]] != 0.0
      then [TimerSpec(interval[names[0]], names[0])] + rest
      else rest
  }

  /** A name gets a timer exactly when it is listed and its interval is
      present and not zero. */
  lemma {:induction false} SelectedIff(names: seq<string>, interval: map<string, real>, e: string)
    ensures (exists t :: t in SelectTimers(names, interval) && t.event == e) <==>
      e in names && e in interval && interval[e] != 0.0
  {
    if names != [] {
      SelectedIff(names[1..], interval, e);
      if e == names[0] && e in interval && interval[e] != 0.0 {
        assert SelectTimers(names, interval)[0].event == e;
      }
    }
  }

  /** Selection keeps the order of the names: selecting from a concatenation
      is the concatenation of the selections. */
  lemma {:induction false} SelectPreservesOrder(a: seq<string>, b: seq<string>, interval: map<string, real>)
    ensures SelectTimers(a + b, interval) == SelectTimers(a, interval) + SelectTimers(b, interval)
  {
    if a != [] {
      assert (a + b)[0] == a[0];
      assert (a + b)[1..] == a[1..] + b;
      SelectPreservesOrder(a[1..], b, interval);
    } else {
      assert a + b == b;
    }
  }

  /** With the names `init` of the periodic events sets up, a registered
      heartbeat and no data-recovery interval give one timer, the
      heartbeat's. */
  lemma HeartbeatOnly(i: real)
    requires i != 0.0
    ensures SelectTimers([HEARTBEAT, DATA_RECOVER], map[HEARTBEAT := i]) == [TimerSpec(i, HEARTBEAT)]
  {
    assert [HEARTBEAT, DATA_RECOVER][1..] == [DATA_RECOVER];
    assert [DATA_RECOVER][1..] == [];
  }

  /** A circuits `Timer`: it fires `event` every `interval` seconds while it
      is registered. */
  class Timer {
    const interval: real
    const event: string
    const persist: bool
    var registered: bool

    constructor (interval: real, event: string, persist: bool)
      ensures this.interval == interval && this.event == event && this.persist == persist
      ensures !registered
    {
      this.interval := interval;
      this.event := event;
      this.persist := persist;
      registered := false;
    }

    method Register()
      modifies this
      ensures registered
    {
      registered := true;
    }

    method Unregister()
      modifies this
      ensures !registered
    {
      registered := false;
    }
  }

  /** What a list of timers is built from. */
  function SpecsOf(ts: seq<Timer>): (r: seq<TimerSpec>)
    ensures |r| == |ts|
  {
    seq(|ts|, i requires 0 <= i < |ts| => TimerSpec(ts[i].interval, ts[i].event))
  }

  ghost predicate AllRegistered(ts: seq<Timer>)
    reads set t | t in ts
  {
    forall t :: t in ts ==> t.registered
  }

  ghost predicate NoneRegistered(ts: seq<Timer>)
    reads set t | t in ts
  {
    forall t :: t in ts ==> !t.registered
  }

  class Scheduler {
    var timers: seq<Timer>
    /** The periodic events, registered as a child of the scheduler. */
    var events: PeriodicEvents
    var gui: TkinterGUI?
    /** The GUI tick; `init` registers it but keeps it out of `timers`. */
    ghost var guiTick: Timer?

    ghost predicate Valid()
      reads this
    {
      && (guiTick != null ==> guiTick !in timers)
      && (guiTick != null <==> gui != null)
    }

    /** `Scheduler(events, gui)`: the timers of `SelectTimers`, each persistent
        and registered, and a registered 0.01 tick when there is a gui. */
    constructor (events: PeriodicEvents, gui: TkinterGUI?)
      ensures Valid()
      ensures SpecsOf(timers) == SelectTimers(events.eventNames, events.interval)
      ensures forall t :: t in timers ==> fresh(t) && t.persist && t.registered
      ensures this.events == events && this.gui == gui
      ensures guiTick != null ==>
        && fresh(guiTick) && guiTick.registered && guiTick.persist
        && guiTick.interval == GUI_TICK && guiTick.event == UPDATE_GUI
    {
      var specs := SelectTimers(events.eventNames, events.interval);
      var ts: seq<Timer> := [];
      var i := 0;
      while i < |specs|
        invariant 0 <= i <= |specs|
        invariant |ts| == i && SpecsOf(ts) == specs[..i]
        invariant forall t :: t in ts ==> fresh(t) && t.persist && t.registered
      {
        var t := new Timer(specs[i].interval, specs[i].event, true);
        t.Register();
        assert SpecsOf(ts + [t]) == specs[..i + 1];
        ts := ts + [t];
        i := i + 1;
      }
      assert specs[..i] == specs;
      timers := ts;
      this.events := events;
      this.gui := gui;
      if gui != null {
        var tick := new Timer(GUI_TICK, UPDATE_GUI, true);
        tick.Register();
        guiTick := tick;
      } else {
        guiTick := null;
      }
    }

    /** `stop_timers`: every listed timer is unregistered; the list and the
        GUI tick are untouched. */
    method StopTimers()
      requires Valid()
      modifies set t | t in timers
      ensures NoneRegistered(timers)
      ensures guiTick != null ==> guiTick.registered == old(guiTick.registered)
    {
      var i := 0;
      while i < |timers|
        invariant 0 <= i <= |timers|
        invariant forall j :: 0 <= j < i ==> !timers[j].registered
        invariant guiTick != null ==> guiTick.registered == old(guiTick.registered)
      {
        timers[i].Unregister();
        i := i + 1;
      }
    }

    /** `start_timers`: every listed timer is registered again; the list and
        the GUI tick are untouched. */
    method StartTimers()
      requires Valid()
      modifies set t | t in timers
      ensures AllRegistered(timers)
      ensures guiTick != null ==> guiTick.registered == old(guiTick.registered)
    {
      var i := 0;
      while i < |timers|
        invariant 0 <= i <= |timers|
        invariant forall j :: 0 <= j < i ==> timers[j].registered
        invariant guiTick != null ==> guiTick.registered == old(guiTick.registered)
      {
        timers[i].Register();
        i := i + 1;
      }
    }

    /** `update_gui`: the GUI tick refreshes the window; the window's
        configuration and update callback stay as they were. Without a GUI,
        `init` never set `self.gui`, so reading it raises `AttributeError`. */
    method UpdateGui() returns (err: Option<FireError>)
      requires Valid()
      modifies gui
      ensures err.None? <==> gui != null
      ensures err.Some? ==> err.value == AttributeError("gui")
      ensures gui != null ==>
                (gui.trace == old(gui.trace)
                  + (if gui.onUpdate.Some? then [UpdateCallbackRan(gui.onUpdate.value)] else [])
                  + [WindowRefreshed])
      ensures gui != null ==> gui.onUpdate == old(gui.onUpdate) && gui.config == old(gui.config)
    {
      if gui != null {
        gui.Update();
        err := None;
      } else {
        err := Some(AttributeError("gui"));
      }
    }

    /** The handler circuits runs for an event of the given name: the event
        methods of the periodic events, the scheduler's own `stop_timers`,
        `start_timers` and `update_gui`, and nothing for any other name. */
    method Dispatch(name: string) returns (err: Option<FireError>)
      requires Valid()
      modifies events, gui, set t | t in timers
      ensures name == HEARTBEAT ==>
                (events.fired == old(events.fired)
                  + (if events.heartbeatHandler.Some? then [events.heartbeatHandler.value] else []))
      ensures name == HEARTBEAT ==> (err.None? <==> events.heartbeatHandler.Some?)
      ensures name == HEARTBEAT && err.Some? ==> err.value == AttributeError("_heartbeat")
      ensures name == DATA_RECOVER ==>
                (events.fired == old(events.fired)
                  + (if events.dataRecoverHandler.Some? then [events.dataRecoverHandler.value] else []))
      ensures name == DATA_RECOVER ==> (err.None? <==> events.dataRecoverHandler.Some?)
      ensures name == DATA_RECOVER && err.Some? ==> err.value == AttributeError("_dataRecover")
      ensures name != HEARTBEAT && name != DATA_RECOVER ==> events.fired == old(events.fired)
      ensures name != HEARTBEAT && name != DATA_RECOVER && name != UPDATE_GUI ==> err.None?
      ensures name == UPDATE_GUI ==> (err.None? <==> gui != null)
      ensures name == UPDATE_GUI && err.Some? ==> err.value == AttributeError("gui")
      ensures name == STOP_TIMERS ==> NoneRegistered(timers)
      ensures name == START_TIMERS ==> AllRegistered(timers)
      ensures name != STOP_TIMERS && name != START_TIMERS ==>
                forall t :: t in timers ==> t.registered == old(t.registered)
      ensures name == UPDATE_GUI && gui != null ==>
                (gui.trace == old(gui.trace)
                  + (if gui.onUpdate.Some? then [UpdateCallbackRan(gui.onUpdate.value)] else [])
                  + [WindowRefreshed])
      ensures name != UPDATE_GUI && gui != null ==> gui.trace == old(gui.trace)
      ensures gui != null ==> gui.onUpdate == old(gui.onUpdate) && gui.config == old(gui.config)
      ensures events.interval == old(events.interval) && events.eventNames == old(events.eventNames)
      ensures events.heartbeatHandler == old(events.heartbeatHandler)
      ensures events.dataRecoverHandler == old(events.dataRecoverHandler)
      ensures guiTick != null ==> guiTick.registered == old(guiTick.registered)
    {
      err := None;
      if name == HEARTBEAT {
        err := events.FireHeartbeat();
      } else if name == DATA_RECOVER {
        err := events.FireDataRecover();
      } else if name == STOP_TIMERS {
        StopTimers();
      } else if name == START_TIMERS {
        StartTimers();
      } else if name == UPDATE_GUI {
        err := UpdateGui();
      }
    }
  }

  /** Stopping then starting the timers registers every listed timer again,
      with the same intervals and events, and leaves the GUI tick alone. */
  method StopThenStart(s: Scheduler)
    requires s.Valid()
    modifies set t | t in s.timers
    ensures s.timers == old(s.timers) && SpecsOf(s.timers) == old(SpecsOf(s.timers))
    ensures AllRegistered(s.timers)
    ensures s.guiTick != null ==> s.guiTick.registered == old(s.guiTick.registered)
  {
    s.StopTimers();
    s.StartTimers();
  }
}
