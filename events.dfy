/**
 * The listener registry of the handler: one list of listeners per event of
 * `EventRegistry`, `on` to append to a list and `emit` to call a list in
 * order. Listeners are opaque callbacks; a call is recorded as a delivery.
 */
module Events {
  import opened Media
  import opened Enums

  /** The event names of `EventRegistry`. */
  datatype EventName = DeviceListUpdate | Log | PermissionStatusChange {
    function Text(): string {
      match this
      case DeviceListUpdate => "video-devicelist-update"
      case Log => "log"
      case PermissionStatusChange => "permission-status-change"
    }
  }

  /** The registry of the two later revisions; the oldest one has no `permission-status-change`. */
  const FullRegistry: seq<EventName> := [DeviceListUpdate, Log, PermissionStatusChange]
  const OldestRegistry: seq<EventName> := [DeviceListUpdate, Log]

  /**
   * The payloads of `EventDataMap`: the device map (a device array in the
   * oldest revision), a log line, the `JSON.stringify` log line of a device
   * array, and a permission status.
   */
  datatype EventData =
    | DeviceMap(devices: map<string, DeviceInfo>)
    | DeviceList(list: seq<DeviceInfo>)
    | LogLine(line: string)
    | LogJson(logged: seq<DeviceInfo>)
    | StatusChange(state: PermissionState, detail: string)

  /** A registered callback, known by its identity only. */
  datatype Listener = Listener(id: nat)

  /** One call `listener(data)`. */
  datatype Delivery = Delivery(listener: Listener, data: EventData)

  /** The calls `listeners.forEach(l => l(data))` makes, in registration order. */
  function Deliveries(listeners: seq<Listener>, data: EventData): (r: seq<Delivery>)
    ensures |r| == |listeners|
    ensures forall i :: 0 <= i < |r| ==> r[i] == Delivery(listeners[i], data)
  {
    seq(|listeners|, i requires 0 <= i < |listeners| => Delivery(listeners[i], data))
  }

  /** A listener registered after the others is called after them. */
  lemma DeliveriesSnoc(listeners: seq<Listener>, l: Listener, data: EventData)
    ensures Deliveries(listeners + [l], data) == Deliveries(listeners, data) + [Delivery(l, data)]
  {
    assert forall i :: 0 <= i < |listeners| ==> (listeners + [l])[i] == listeners[i];
  }

  /** The deliveries an emit of `data` on `e` makes with the given lists; none for an event without a list. */
  function Notifications(listeners: map<EventName, seq<Listener>>, e: EventName, data: EventData): seq<Delivery> {
    if e in listeners then Deliveries(listeners[e], data) else []
  }

  class EventBus {
    /** The events this bus has lists for. */
    const registry: seq<EventName>
    /** `events`: each registered event's listeners, in registration order. */
    var listeners: map<EventName, seq<Listener>>
    /** Every listener call made so far, in order. */
    var delivered: seq<Delivery>

    /** There is a list for exactly the registered events. */
    predicate Valid()
      reads this
    {
      listeners.Keys == set e | e in registry
    }

    /** `EventRegistry.reduce(...)`: an empty list for every registered event. */
    constructor(events: seq<EventName>)
      ensures Valid()
      ensures registry == events
      ensures listeners == map e | e in events :: []
      ensures delivered == []
    {
      registry := events;
      listeners := map e | e in events :: [];
      delivered := [];
    }

    /** `on`: append the listener to this event's list; no other list changes and nobody is called. */
    method On(eventName: EventName, listener: Listener)
      requires Valid() && eventName in registry
      modifies this
      ensures Valid()
      ensures listeners == old(listeners)[eventName := old(listeners)[eventName] + [listener]]
      ensures delivered == old(delivered)
    {
      listeners := listeners[eventName := listeners[eventName] + [listener]];
    }

    /** `emit`: call this event's listeners with the data, in registration order; no list changes. */
    method Emit(eventName: EventName, data: EventData)
      requires Valid() && eventName in registry
      modifies this
      ensures Valid()
      ensures listeners == old(listeners)
      ensures delivered == old(delivered) + Deliveries(listeners[eventName], data)
    {
      var list := listeners[eventName];
      var i := 0;
      while i < |list|
        invariant 0 <= i <= |list|
        invariant listeners == old(listeners)
        invariant delivered == old(delivered) + Deliveries(list[..i], data)
      {
        assert list[..i + 1] == list[..i] + [list[i]];
        DeliveriesSnoc(list[..i], list[i], data);
        delivered := delivered + [Delivery(list[i], data)];
        i := i + 1;
      }
      assert list[..i] == list;
    }
  }
}
