/** The status window's bookkeeping (gui.py): a dictionary that builds a
    missing entry from its key, the event-name-to-callback map kept in one,
    the merged window configuration, and the periodic `update`. The Tk
    widgets themselves are not modelled. */
module Gui {
  import opened Prelude

  /** What a button command resolves to: a function the application
      registered, or the stub that reports the event as not implemented. */
  datatype Callback = Registered(handler: Handler) | NotImplemented(eventName: string)

  /** `key_dependent_dict`: a dictionary whose missing entries are computed
      from the key by `factory`, installed, and returned. */
  class KeyDependentDict<V> {
    var entries: map<string, V>
    const factory: string -> V
    /** The keys `factory` has been called with, in order. */
    var factoryCalls: seq<string>

    constructor (f: string -> V)
      ensures entries == map[] && factory == f && factoryCalls == []
    {
      entries := map[];
      factory := f;
      factoryCalls := [];
    }

    /** `d[key]`: a present key gives its value and changes nothing; a
        missing key calls `factory` once, installs its result and returns
        it. */
    method Lookup(key: string) returns (v: V)
      modifies this
      ensures key in entries && v == entries[key]
      ensures key in old(entries) ==>
        v == old(entries)[key] && entries == old(entries) && factoryCalls == old(factoryCalls)
      ensures key !in old(entries) ==>
        v == factory(key) && entries == old(entries)[key := v] && factoryCalls == old(factoryCalls) + [key]
    {
      if key in entries {
        v := entries[key];
      } else {
        v := factory(key);
        factoryCalls := factoryCalls + [key];
        entries := entries[key := v];
      }
    }

    /** `d[key] = v` */
    method Store(key: string, v: V)
      modifies this
      ensures entries == old(entries)[key := v] && factoryCalls == old(factoryCalls)
    {
      entries := entries[key := v];
    }
  }

  /** Looking a key up twice gives the same value both times, and `factory`
      runs at most once, on the first lookup of a missing key. */
  method LookupTwice<V>(d: KeyDependentDict<V>, key: string) returns (v1: V, v2: V)
    modifies d
    ensures v1 == v2 && d.entries == old(d.entries)[key := v1]
    ensures d.factoryCalls == old(d.factoryCalls) + (if key in old(d.entries) then [] else [key])
  {
    v1 := d.Lookup(key);
    v2 := d.Lookup(key);
  }

  const TITLE := "TITLE"
  const GEOMETRY := "GEOMETRY"

  /** `{**defaults, **config}`: the caller's values win; the title and
      geometry take their defaults when the caller leaves them out. */
  function MergeConfig(config: map<string, Value>): (r: map<string, Value>)
    ensures r.Keys == config.Keys + {TITLE, GEOMETRY}
    ensures forall k :: k in config ==> r[k] == config[k]
    ensures TITLE !in config ==> r[TITLE] == Str("MQTT")
    ensures GEOMETRY !in config ==> r[GEOMETRY] == Str("580x240")
  {
    map[TITLE := Str("MQTT"), GEOMETRY := Str("580x240")] + config
  }

  /** What the window has done, in order. */
  datatype GuiEvent = UpdateCallbackRan(handler: Handler) | WindowRefreshed

  class TkinterGUI {
    var config: map<string, Value>
    const callback: KeyDependentDict<Callback>
    var onUpdate: Option<Handler>
    var trace: seq<GuiEvent>

    /** The dictionary's factory is `_dummy_event_handler`: it builds the
        not-implemented stub for the name it is given. */
    ghost predicate Valid()
    {
      forall name :: callback.factory(name) == NotImplemented(name)
    }

    constructor (config: map<string, Value>)
      ensures Valid() && this.config == MergeConfig(config)
      ensures fresh(callback) && callback.entries == map[] && callback.factoryCalls == []
      ensures onUpdate == None && trace == []
    {
      this.config := MergeConfig(config);
      callback := new KeyDependentDict((name: string) => NotImplemented(name));
      onUpdate := None;
      trace := [];
    }

    /** `@on_event(name)` applied to `func`: overwrites that one entry. */
    method OnEvent(name: string, func: Handler)
      modifies callback
      ensures callback.entries == old(callback.entries)[name := Registered(func)]
      ensures callback.factoryCalls == old(callback.factoryCalls)
    {
      callback.Store(name, Registered(func));
    }

    /** `@on_update()` applied to `func`: the last registration wins. */
    method OnUpdate(func: Handler)
      modifies this
      ensures onUpdate == Some(func) && trace == old(trace) && config == old(config)
    {
      onUpdate := Some(func);
    }

    /** `self.callback[name]`: the callback registered for `name`, or else
        the not-implemented stub for that same name, which is installed so
        that later lookups return it without calling the factory again. */
    method Resolve(name: string) returns (c: Callback)
      requires Valid()
      modifies callback
      ensures c == if name in old(callback.entries) then old(callback.entries)[name] else NotImplemented(name)
      ensures callback.entries == old(callback.entries)[name := c]
      ensures callback.factoryCalls == old(callback.factoryCalls) + (if name in old(callback.entries) then [] else [name])
    {
      c := callback.Lookup(name);
    }

    /** The commands the two buttons of `init` are given: the callback
        registered for `btn_hit` and `btn_hit_no_impl_example`, or the
        not-implemented stub for a name never registered, which the lookup
        installs in the dictionary. */
    method ButtonCommands() returns (hit: Callback, noImpl: Callback)
      requires Valid()
      modifies callback
      ensures hit == if "btn_hit" in old(callback.entries) then old(callback.entries)["btn_hit"]
                     else NotImplemented("btn_hit")
      ensures noImpl ==
        if "btn_hit_no_impl_example" in old(callback.entries)
        then old(callback.entries)["btn_hit_no_impl_example"]
        else NotImplemented("btn_hit_no_impl_example")
      ensures callback.entries == old(callback.entries)["btn_hit" := hit]["btn_hit_no_impl_example" := noImpl]
      ensures callback.factoryCalls == old(callback.factoryCalls)
        + (if "btn_hit" in old(callback.entries) then [] else ["btn_hit"])
        + (if "btn_hit_no_impl_example" in old(callback.entries) then [] else ["btn_hit_no_impl_example"])
    {
      hit := Resolve("btn_hit");
      noImpl := Resolve("btn_hit_no_impl_example");
    }

    /** `update`: the update callback, when one is registered, runs before
        the window is refreshed. */
    method Update()
      modifies this
      ensures trace == old(trace)
        + (if onUpdate.Some? then [UpdateCallbackRan(onUpdate.value)] else [])
        + [WindowRefreshed]
      ensures onUpdate == old(onUpdate) && config == old(config)
    {
      if onUpdate.Some? {
        trace := trace + [UpdateCallbackRan(onUpdate.value)];
      }
      trace := trace + [WindowRefreshed];
    }
  }
}
