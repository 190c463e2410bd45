# USB serial-port monitor, modelled in Dafny

This project models `SerialPortMonitor`, the component of the USB port
event handler that watches for hardware arriving and leaving on a Windows
machine and tells its subscribers which serial (COM) port appeared or
disappeared. It also covers the hub path, which reports MagTek USB devices
directly by their device identifier.

The monitor keeps three pieces of state: a port list (`serialPorts`),
which is the list taken at start or adopted by the last callback that
raised an event, and two watcher slots (`arrival`, `removal`).
It reacts to two kinds of notification:

* **Device change.** The monitor queries the current port list. An
  insertion compares that list with the snapshot element by element. If
  they differ, it takes the ports that are new (LINQ `Except`, an ordered
  and de-duplicated difference). If there is at least one, the list
  becomes the snapshot and the first new port is raised. A removal skips
  the equality check: it takes the snapshot's ports that are gone and, if
  there is one, replaces the snapshot and raises the first of them. Each
  callback raises at most one event.
* **USB hub instance created or deleted.** The device identifier is
  tested for `vid_0801` in any letter case. A missing identifier counts
  as empty. On a match the identifier is raised unchanged. The snapshot
  is never touched.

`StartMonitoring` takes the first snapshot. It then fills both slots with
started device-change watchers and fills them again with started hub
watchers. `StopMonitoring`/`Dispose` stop whatever the slots hold and
empty them, so the two device-change watchers are never stopped.

Files:

* `wrappers.dfy`: `Option`, the model of a nullable reference.
* `port_events.dfy`: the event kind and the event record.
* `sequence_ops.dfy`: `Except` as the library computes it, and the
  reference function `FirstAbsent`. Equality of two port lists uses
  Dafny's sequence `==`, which is what `SequenceEqual` with the default
  string comparer decides.
* `reconciliation.dfy`: `Reconcile`, the reference behaviour of one
  device-change callback, stated with `FirstAbsent` rather than with the
  library calls. The lemmas about it live here too.
* `vendor_filter.dfy`: ASCII case-insensitive substring search and the
  hub decision.
* `serial_port_monitor.dfy`: the `SerialPortMonitor` class. Its fields
  are the snapshot, the two slots, the set of running watchers, a handle
  counter and the log of raised events. Its methods mirror the source,
  and their postconditions tie the new state to `Reconcile` and
  `HubEvent`. The file also holds client methods that drive a monitor
  through whole sessions.

The model follows the code in these respects:

* The snapshot is an ordered array. The insertion guard is
  order-sensitive.
* The port reported is the first element of the difference, not an
  arbitrary one.
* Only two watcher slots exist, and the hub pair overwrites the
  device-change pair.
* A failing port query is not handled at all.

## Model

| member | source | states |
|---|---|---|
| `SequenceOps.Except` | source/USBPortEventHandler/Devices/Core/SerialPort/SerialPortMonitor.cs:78 | the difference holds exactly the ports of the first list that the second lacks, each once, and is no longer than the first list |
| `SequenceOps.FirstAbsent` | source/USBPortEventHandler/Devices/Core/SerialPort/SerialPortMonitor.cs:83 | the index of the first element of one list missing from the other: every earlier element is present; None exactly when every element is present |
| `SequenceOps.ExceptLeadsWithFirstAbsent` | source/USBPortEventHandler/Devices/Core/SerialPort/SerialPortMonitor.cs:78-83 | `Except` is non-empty exactly when something is absent, and its element 0 (what `added[0]`/`removed[0]` reports) is the first absent element |
| `SequenceOps.NothingAbsentFromItself` | source/USBPortEventHandler/Devices/Core/SerialPort/SerialPortMonitor.cs:76 | a list compared with itself has nothing absent and an empty difference |
| `Reconciliation.Reconcile` | source/USBPortEventHandler/Devices/Core/SerialPort/SerialPortMonitor.cs:69-98 | the snapshot is replaced exactly when an event is raised; then it becomes the new list, which differs from the old one, and the event has the callback's kind |
| `Reconciliation.NoEventForUnchangedList` | source/USBPortEventHandler/Devices/Core/SerialPort/SerialPortMonitor.cs:74-76 | a list sequence-equal to the snapshot raises nothing and leaves the snapshot as it was, for either kind |
| `Reconciliation.InsertionReportsFirstNewPort` | source/USBPortEventHandler/Devices/Core/SerialPort/SerialPortMonitor.cs:78-83 | an insertion raises iff the new list holds a port the snapshot lacks; it reports the first such port and the snapshot becomes exactly the new list; otherwise nothing changes |
| `Reconciliation.InsertionIgnoresReorderAndLoss` | source/USBPortEventHandler/Devices/Core/SerialPort/SerialPortMonitor.cs:76-79 | an insertion whose list only reorders or drops ports raises nothing and does not update the snapshot |
| `Reconciliation.RemovalReportsFirstLostPort` | source/USBPortEventHandler/Devices/Core/SerialPort/SerialPortMonitor.cs:87-95 | a removal raises iff the snapshot holds a port the new list lacks; it reports the first such port and the snapshot becomes the new list; otherwise nothing changes |
| `Reconciliation.RemovalIgnoresAdditions` | source/USBPortEventHandler/Devices/Core/SerialPort/SerialPortMonitor.cs:87-90 | with no equality pre-check, a removal whose list only adds or reorders ports raises nothing and leaves the snapshot stale |
| `Reconciliation.ReconcileIsIdempotent` | source/USBPortEventHandler/Devices/Core/SerialPort/SerialPortMonitor.cs:78-95 | repeating a callback of the same kind with the same list raises nothing and keeps the snapshot |
| `Reconciliation.OneEventForManyInsertions` | source/USBPortEventHandler/Devices/Core/SerialPort/SerialPortMonitor.cs:78-83 | with two new ports, one event is raised and it reports the first new port of the list; both ports are in the new snapshot, so a repeated insertion reports nothing more |
| `Reconciliation.OneEventForManyRemovals` | source/USBPortEventHandler/Devices/Core/SerialPort/SerialPortMonitor.cs:89-94 | with two lost ports, one event is raised and it reports the first lost port of the snapshot; both ports are absent from the new snapshot, so a repeated removal reports nothing more |
| `Reconciliation.InsertionMasksRemoval` | source/USBPortEventHandler/Devices/Core/SerialPort/SerialPortMonitor.cs:74-95 | an insertion that also sees a vanished port absorbs the new list, so the following removal callback with that list reports nothing |
| `Reconciliation.RemovalMasksInsertion` | source/USBPortEventHandler/Devices/Core/SerialPort/SerialPortMonitor.cs:74-95 | a removal that also sees a new port absorbs the new list, so the following insertion callback with that list reports nothing |
| `Reconciliation.InsertionScenario` | source/USBPortEventHandler/Devices/Core/SerialPort/SerialPortMonitor.cs:74-83 | snapshot COM1, COM2 and list COM1, COM2, COM3: raises Insertion COM3 and stores the three ports |
| `Reconciliation.RemovalScenario` | source/USBPortEventHandler/Devices/Core/SerialPort/SerialPortMonitor.cs:87-94 | snapshot COM1, COM2 and list COM1: raises Removal COM2 and stores COM1 |
| `VendorFilter.LowerAsciiFoldsCase` | source/USBPortEventHandler/Devices/Core/SerialPort/SerialPortMonitor.cs:133 | two characters fold to the same character exactly when they are equal or are the upper- and lower-case forms of one ASCII letter |
| `VendorFilter.ContainsIgnoreCase` | source/USBPortEventHandler/Devices/Core/SerialPort/SerialPortMonitor.cs:133 | true exactly when some stretch of the string equals the pattern ignoring case |
| `VendorFilter.HubEvent` | source/USBPortEventHandler/Devices/Core/SerialPort/SerialPortMonitor.cs:132-136 | an event is raised iff an identifier is present and contains the signature ignoring case; the event carries the callback's kind and the identifier unchanged |
| `VendorFilter.HubEventIgnoresCase` | source/USBPortEventHandler/Devices/Core/SerialPort/SerialPortMonitor.cs:133 | two identifiers equal ignoring case are both reported or both ignored |
| `VendorFilter.MissingDeviceIDIsIgnored` | source/USBPortEventHandler/Devices/Core/SerialPort/SerialPortMonitor.cs:132 | a hub notification without a device identifier raises nothing |
| `VendorFilter.MagTekScenario` | source/USBPortEventHandler/Devices/Core/SerialPort/SerialPortMonitor.cs:133-135 | `USB\VID_0801&PID_0001` is raised unchanged, for either kind |
| `VendorFilter.OtherVendorScenario` | source/USBPortEventHandler/Devices/Core/SerialPort/SerialPortMonitor.cs:133 | `USB\VID_046D&PID_C52B` raises nothing |
| `Monitor.SerialPortMonitor.constructor` | source/USBPortEventHandler/Devices/Core/SerialPort/SerialPortMonitor.cs:10-16 | a new monitor has no snapshot, empty slots, nothing running and nothing raised |
| `Monitor.SerialPortMonitor.StartMonitoring` | source/USBPortEventHandler/Devices/Core/SerialPort/SerialPortMonitor.cs:18-27 | the snapshot becomes the initial list; four watchers start; the slots end up holding the hub pair; nothing is raised |
| `Monitor.SerialPortMonitor.NewWatcher` | source/USBPortEventHandler/Devices/Core/SerialPort/SerialPortMonitor.cs:51 | a watcher handle with a fresh id for the given class and kind |
| `Monitor.SerialPortMonitor.MonitorUSBPortDeviceChanges` | source/USBPortEventHandler/Devices/Core/SerialPort/SerialPortMonitor.cs:45-67 | both slots hold new, started device-change watchers, arrival for insertion and removal for removal |
| `Monitor.SerialPortMonitor.MonitorUsbHubDeviceChanges` | source/USBPortEventHandler/Devices/Core/SerialPort/SerialPortMonitor.cs:102-124 | both slots are overwritten with new, started hub watchers; the watchers they held keep running |
| `Monitor.SerialPortMonitor.StopMonitoring` | source/USBPortEventHandler/Devices/Core/SerialPort/SerialPortMonitor.cs:29 | the same new state as `Dispose` |
| `Monitor.SerialPortMonitor.Dispose` | source/USBPortEventHandler/Devices/Core/SerialPort/SerialPortMonitor.cs:31-40 | the watchers the slots held are stopped and both slots are empty; with empty slots nothing changes |
| `Monitor.SerialPortMonitor.RaisePortsChangedIfNecessary` | source/USBPortEventHandler/Devices/Core/SerialPort/SerialPortMonitor.cs:69-98 | the library-based callback leaves exactly the snapshot and event of `Reconcile`; the log grows by at most one event |
| `Monitor.SerialPortMonitor.RaiseUsbHubPortsChangedIfNecessary` | source/USBPortEventHandler/Devices/Core/SerialPort/SerialPortMonitor.cs:126-139 | the log grows by exactly `HubEvent`'s event, so by at most one; the snapshot is unchanged |
| `Monitor.SerialPortMonitor.EventArrived` | source/USBPortEventHandler/Devices/Core/SerialPort/SerialPortMonitor.cs:52-116 | a running device-change watcher runs the port callback with its kind; a hub watcher runs the hub callback with its kind |
| `Monitor.StopLeavesPortWatchersRunning` | source/USBPortEventHandler/Devices/Core/SerialPort/SerialPortMonitor.cs:18-40 | after start then stop, both slots are empty, yet the two device-change watchers are still running |
| `Monitor.StopWithoutStartIsSafe` | source/USBPortEventHandler/Devices/Core/SerialPort/SerialPortMonitor.cs:31-40 | stopping a never-started monitor twice leaves empty slots and nothing running |
| `Monitor.StopIsIdempotent` | source/USBPortEventHandler/Devices/Core/SerialPort/SerialPortMonitor.cs:31-40 | a second stop after start leaves the running watchers as the first stop left them |
| `Monitor.PlugAndUnplugSession` | source/USBPortEventHandler/Devices/Core/SerialPort/SerialPortMonitor.cs:18-139 | a whole session raises, in order, Insertion COM3, Removal COM3 and the MagTek insertion; the repeated arrival raises nothing; the snapshot ends as COM1, COM2 |
| `Monitor.RemovalBackToTwo` | source/USBPortEventHandler/Devices/Core/SerialPort/SerialPortMonitor.cs:87-94 | snapshot COM1, COM2, COM3 and list COM1, COM2: raises Removal COM3 and stores COM1, COM2 |

## Left out

- WMI plumbing: the WQL query text, `ManagementEventWatcher`, and pulling the `DeviceID` out of the event arguments. A watcher is an opaque handle tagged with its notification class and kind. The device identifier is an `Option<string>` parameter.
- `SerialPort.GetPortNames()` becomes the `available` parameter of the callbacks and of `StartMonitoring`. The hub callback's unused query has no observable effect and is dropped. A failing query is not modelled; the source does not handle one either.
- `lock (serialPorts)` and concurrent delivery. Each callback is one atomic, sequential call. The lock throws when the snapshot is still null, so both callbacks require a snapshot. `Valid()` shows any running watcher has one. The null branch of `?? false` at line 76 is unreachable for the same reason.
- The `ManagementException` handlers only print to the console. Watcher creation and start always succeed in the model, so a half-filled slot pair is not modelled.
- Subscribers: `ComportEventOccured?.Invoke` with no subscriber raises nothing. The model logs every raised event whether or not anyone listens. The `Task` the handler returns is ignored.
- Stopping and disposing a watcher are one step in the model: the watcher leaves the running set.
- `Program.cs`, the console harness, is not part of this model.
- VendorFilter.ContainsIgnoreCase: folds ASCII letters only, not the full Unicode `OrdinalIgnoreCase` mapping. That is enough for the ASCII signature `vid_0801`. It differs only for non-ASCII characters whose upper-case form is an ASCII letter of the signature.
- SequenceOps.Except: only its membership, its distinctness and its first element are proved. The order of the later elements is not, since the monitor reads only element 0.
