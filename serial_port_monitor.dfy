/**
 * The monitor itself: the stored serial-port snapshot, the two watcher
 * slots, and the callbacks the platform runs when a watcher fires. The
 * platform's queries and notifications become parameters: the port list
 * the callback would query, and the hub device's identifier.
 */
module Monitor {
  import opened Wrappers
  import opened PortEvents
  import opened SequenceOps
  import opened Reconciliation
  import opened VendorFilter

  /** The two notification classes: any device arriving or leaving, and USB hub instances being created or deleted. */
  datatype Stream = DeviceChange | UsbHub

  /** An opaque watcher handle: a unique id, the class it listens to, and the kind its callback passes on. */
  datatype Watcher = Watcher(id: nat, stream: Stream, kind: PortEventType)

  /** The watcher a slot holds, as a set. */
  function Held(slot: Option<Watcher>): set<Watcher> {
    match slot
    case None => {}
    case Some(w) => {w}
  }

  class SerialPortMonitor {
    /** The port list taken at start, or adopted by the last callback that raised an event (None until monitoring starts). */
    var serialPorts: Option<seq<string>>
    /** The two watcher slots. */
    var arrival: Option<Watcher>
    var removal: Option<Watcher>
    /** The watchers that have been started and not yet stopped. */
    var running: set<Watcher>
    /** The id the next watcher created gets. */
    var nextId: nat
    /** Every event raised to subscribers, in order. */
    var events: seq<PortEvent>

    /**
     * The object invariant: each slot holds a watcher of its own kind,
     * every handle came from this monitor, and a running watcher implies
     * the snapshot was taken (it is taken before any watcher starts).
     */
    ghost predicate Valid()
      reads this
    {
      (arrival.Some? ==> arrival.value.kind == Insertion && arrival.value.id < nextId) &&
      (removal.Some? ==> removal.value.kind == Removal && removal.value.id < nextId) &&
      (forall w :: w in running ==> w.id < nextId) &&
      (running != {} ==> serialPorts.Some?)
    }

    /** A new monitor: no snapshot, empty slots, nothing running, nothing raised. */
    constructor ()
      ensures Valid()
      ensures serialPorts == None && arrival == None && removal == None
      ensures running == {} && nextId == 0 && events == []
    {
      serialPorts := None;
      arrival, removal := None, None;
      running := {};
      nextId := 0;
      events := [];
    }

    /**
     * Takes the initial port list, then fills both slots with started
     * device-change watchers and fills them again with started hub
     * watchers: the slots end up holding the hub pair, while all four
     * watchers run.
     */
    method StartMonitoring(available: seq<string>)
      requires Valid()
      modifies this
      ensures Valid()
      ensures serialPorts == Some(available)
      ensures nextId == old(nextId) + 4
      ensures arrival == Some(Watcher(old(nextId) + 2, UsbHub, Insertion))
      ensures removal == Some(Watcher(old(nextId) + 3, UsbHub, Removal))
      ensures running == old(running) + {Watcher(old(nextId), DeviceChange, Insertion),
                                         Watcher(old(nextId) + 1, DeviceChange, Removal),
                                         arrival.value, removal.value}
      ensures events == old(events)
    {
      serialPorts := Some(available);
      MonitorUSBPortDeviceChanges();
      MonitorUsbHubDeviceChanges();
    }

    /** Creates a watcher handle with a fresh id (the platform's `new ManagementEventWatcher`). */
    method NewWatcher(stream: Stream, kind: PortEventType) returns (w: Watcher)
      modifies this`nextId
      ensures w == Watcher(old(nextId), stream, kind)
      ensures nextId == old(nextId) + 1
    {
      w := Watcher(nextId, stream, kind);
      nextId := nextId + 1;
    }

    /** Puts a started device-change watcher for arrivals in `arrival` and one for removals in `removal`. */
    method MonitorUSBPortDeviceChanges()
      requires Valid() && serialPorts.Some?
      modifies this`arrival, this`removal, this`running, this`nextId
      ensures Valid()
      ensures nextId == old(nextId) + 2
      ensures arrival == Some(Watcher(old(nextId), DeviceChange, Insertion))
      ensures removal == Some(Watcher(old(nextId) + 1, DeviceChange, Removal))
      ensures running == old(running) + {arrival.value, removal.value}
    {
      var w := NewWatcher(DeviceChange, Insertion);
      arrival := Some(w);
      running := running + {w};
      w := NewWatcher(DeviceChange, Removal);
      removal := Some(w);
      running := running + {w};
    }

    /** Puts a started hub watcher for creations in `arrival` and one for deletions in `removal`, overwriting whatever the slots held. */
    method MonitorUsbHubDeviceChanges()
      requires Valid() && serialPorts.Some?
      modifies this`arrival, this`removal, this`running, this`nextId
      ensures Valid()
      ensures nextId == old(nextId) + 2
      ensures arrival == Some(Watcher(old(nextId), UsbHub, Insertion))
      ensures removal == Some(Watcher(old(nextId) + 1, UsbHub, Removal))
      ensures running == old(running) + {arrival.value, removal.value}
    {
      var w := NewWatcher(UsbHub, Insertion);
      arrival := Some(w);
      running := running + {w};
      w := NewWatcher(UsbHub, Removal);
      removal := Some(w);
      running := running + {w};
    }

    /** Same as Dispose. */
    method StopMonitoring()
      requires Valid()
      modifies this`arrival, this`removal, this`running
      ensures Valid()
      ensures arrival == None && removal == None
      ensures running == old(running) - Held(old(arrival)) - Held(old(removal))
    {
      Dispose();
    }

    /**
     * Stops the watchers the two slots hold, if any, and empties the
     * slots; with empty slots it stops nothing, so a second call changes
     * nothing. Watchers no slot holds keep running.
     */
    method Dispose()
      requires Valid()
      modifies this`arrival, this`removal, this`running
      ensures Valid()
      ensures arrival == None && removal == None
      ensures running == old(running) - Held(old(arrival)) - Held(old(removal))
    {
      if arrival.Some? {
        running := running - {arrival.value};
      }
      if removal.Some? {
        running := running - {removal.value};
      }
      arrival := None;
      removal := None;
    }

    /**
     * The device-change callback. An insertion whose list is not equal,
     * element by element, to the snapshot takes the distinct ports of the
     * list missing from the snapshot; a removal takes the distinct ports of
     * the snapshot missing from the list. When that difference is non-empty
     * the list becomes the snapshot and its first element is raised.
     * This is exactly the reference behaviour `Reconcile`, whose lemmas
     * say what is raised and when.
     */
    method RaisePortsChangedIfNecessary(kind: PortEventType, available: seq<string>)
      requires Valid() && serialPorts.Some?
      modifies this`serialPorts, this`events
      ensures Valid()
      ensures var r := Reconcile(kind, old(serialPorts).value, available);
        serialPorts == Some(r.snapshot) && events == old(events) + Emitted(r.event)
      ensures |old(events)| <= |events| <= |old(events)| + 1
    {
      var stored := serialPorts.value;
      if kind == Insertion {
        if stored != available {
          var added := Except(available, stored);
          ExceptLeadsWithFirstAbsent(available, stored);
          if |added| > 0 {
            serialPorts := Some(available);
            events := events + [PortEvent(Insertion, added[0])];
          }
        } else {
          NothingAbsentFromItself(stored);
        }
      } else if kind == Removal {
        var removed := Except(stored, available);
        ExceptLeadsWithFirstAbsent(stored, available);
        if |removed| > 0 {
          serialPorts := Some(available);
          events := events + [PortEvent(Removal, removed[0])];
        }
      }
    }

    /**
     * The hub callback: a device identifier containing the vendor
     * signature, in any case, is raised unchanged with the callback's
     * kind; a missing identifier counts as empty. The snapshot is left alone.
     */
    method RaiseUsbHubPortsChangedIfNecessary(kind: PortEventType, deviceID: Option<string>)
      requires Valid() && serialPorts.Some?
      modifies this`events
      ensures Valid()
      ensures events == old(events) + Emitted(HubEvent(kind, deviceID))
      ensures serialPorts == old(serialPorts)
      ensures |old(events)| <= |events| <= |old(events)| + 1
    {
      var targetDeviceID := deviceID.GetOr("");
      if ContainsIgnoreCase(targetDeviceID, Signature) {
        events := events + [PortEvent(kind, targetDeviceID)];
      }
    }

    /**
     * The platform delivering one notification to a running watcher: a
     * device-change watcher runs the port callback with its kind, a hub
     * watcher runs the hub callback with its kind. `available` is what
     * the port query would return, `deviceID` the hub instance's identifier.
     */
    method EventArrived(w: Watcher, available: seq<string>, deviceID: Option<string>)
      requires Valid() && w in running
      modifies this`serialPorts, this`events
      ensures Valid()
      ensures w.stream == DeviceChange ==>
        var r := Reconcile(w.kind, old(serialPorts).value, available);
        serialPorts == Some(r.snapshot) && events == old(events) + Emitted(r.event)
      ensures w.stream == UsbHub ==>
        serialPorts == old(serialPorts) && events == old(events) + Emitted(HubEvent(w.kind, deviceID))
    {
      match w.stream
      case DeviceChange =>
        RaisePortsChangedIfNecessary(w.kind, available);
      case UsbHub =>
        RaiseUsbHubPortsChangedIfNecessary(w.kind, deviceID);
    }
  }

  /**
   * Starting and then stopping a new monitor stops only the hub pair: the
   * two device-change watchers keep running, and no slot refers to them.
   */
  method StopLeavesPortWatchersRunning(initial: seq<string>) returns (stillRunning: set<Watcher>, slotsEmpty: bool)
    ensures stillRunning == {Watcher(0, DeviceChange, Insertion), Watcher(1, DeviceChange, Removal)}
    ensures slotsEmpty
  {
    var m := new SerialPortMonitor();
    m.StartMonitoring(initial);
    m.StopMonitoring();
    stillRunning := m.running;
    slotsEmpty := m.arrival.None? && m.removal.None?;
  }

  /** Stopping a monitor that never started, and stopping it again, is harmless and leaves nothing running. */
  method StopWithoutStartIsSafe() returns (stillRunning: set<Watcher>, slotsEmpty: bool)
    ensures stillRunning == {}
    ensures slotsEmpty
  {
    var m := new SerialPortMonitor();
    m.StopMonitoring();
    m.StopMonitoring();
    stillRunning := m.running;
    slotsEmpty := m.arrival.None? && m.removal.None?;
  }

  /** A second stop after start changes nothing the first one left. */
  method StopIsIdempotent(initial: seq<string>) returns (afterFirst: set<Watcher>, afterSecond: set<Watcher>)
    ensures afterFirst == afterSecond
    ensures |afterSecond| == 2
  {
    var m := new SerialPortMonitor();
    m.StartMonitoring(initial);
    m.StopMonitoring();
    afterFirst := m.running;
    m.StopMonitoring();
    afterSecond := m.running;
  }

  /**
   * A session: start with COM1 and COM2; COM3 arrives and is reported;
   * a repeated arrival notification is silent; COM3 leaves and is
   * reported; a MagTek hub device arrives and is reported by identifier.
   */
  method PlugAndUnplugSession() returns (log: seq<PortEvent>, snapshot: seq<string>)
    ensures log == [PortEvent(Insertion, "COM3"), PortEvent(Removal, "COM3"),
                    PortEvent(Insertion, "USB\\VID_0801&PID_0001")]
    ensures snapshot == ["COM1", "COM2"]
  {
    var m := new SerialPortMonitor();
    m.StartMonitoring(["COM1", "COM2"]);
    var portArrival := Watcher(0, DeviceChange, Insertion);
    var portRemoval := Watcher(1, DeviceChange, Removal);
    var hubArrival := m.arrival.value;

    InsertionScenario();
    m.EventArrived(portArrival, ["COM1", "COM2", "COM3"], None);
    NoEventForUnchangedList(Insertion, ["COM1", "COM2", "COM3"]);
    m.EventArrived(portArrival, ["COM1", "COM2", "COM3"], None);
    RemovalBackToTwo();
    m.EventArrived(portRemoval, ["COM1", "COM2"], None);
    MagTekScenario(Insertion);
    m.EventArrived(hubArrival, ["COM1", "COM2"], Some("USB\\VID_0801&PID_0001"));

    log := m.events;
    snapshot := m.serialPorts.value;
  }

  /** COM3 leaving COM1 and COM2 behind is reported as its removal. */
  lemma RemovalBackToTwo()
    ensures Reconcile(Removal, ["COM1", "COM2", "COM3"], ["COM1", "COM2"]) ==
            Outcome(["COM1", "COM2"], Some(PortEvent(Removal, "COM3")))
  {
  }
}
