/** The values the monitor hands to its subscribers. */
module PortEvents {
  import opened Wrappers

  /** Whether a port (or hub device) appeared or disappeared. */
  datatype PortEventType = Insertion | Removal

  /** One invocation of the monitor's outward event: a kind and a port or device identifier. */
  datatype PortEvent = PortEvent(kind: PortEventType, port: string)

  /** The events one callback appends to the event log: none, or exactly the one it raised. */
  function Emitted(e: Option<PortEvent>): seq<PortEvent> {
    match e
    case None => []
    case Some(ev) => [ev]
  }
}
