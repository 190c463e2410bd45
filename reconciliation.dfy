/**
 * What one device-change callback of the serial-port path should do,
 * stated without the library calls the monitor uses: it looks for the
 * first element of one list that is missing from the other, reports it,
 * and then takes the freshly queried list as its snapshot.
 */
module Reconciliation {
  import opened Wrappers
  import opened PortEvents
  import opened SequenceOps

  /** The stored snapshot after a callback, and the event it raised, if any. */
  datatype Outcome = Outcome(snapshot: seq<string>, event: Option<PortEvent>)

  /** The list a callback of this kind searches for missing ports: the new list on insertion, the stored one on removal. */
  function Scanned(kind: PortEventType, stored: seq<string>, current: seq<string>): seq<string> {
    if kind == Insertion then current else stored
  }

  /** The list the scanned one is compared with. */
  function Against(kind: PortEventType, stored: seq<string>, current: seq<string>): seq<string> {
    if kind == Insertion then stored else current
  }

  /**
   * The reference behaviour: report the first port of the scanned list
   * that the other list lacks and replace the snapshot by `current`;
   * when there is none, raise nothing and keep the old snapshot.
   */
  function Reconcile(kind: PortEventType, stored: seq<string>, current: seq<string>): (r: Outcome)
    ensures r.event.None? ==> r.snapshot == stored
    ensures r.event.Some? ==> r.snapshot == current && r.snapshot != stored
    ensures r.event.Some? ==> r.event.value.kind == kind
  {
    var scanned := Scanned(kind, stored, current);
    match FirstAbsent(scanned, Against(kind, stored, current))
    case None => Outcome(stored, None)
    case Some(i) =>
      assert scanned[i] !in Against(kind, stored, current);
      Outcome(current, Some(PortEvent(kind, scanned[i])))
  }

  /** A list identical to the snapshot, same ports in the same order, raises nothing and changes nothing, whatever the kind. */
  lemma NoEventForUnchangedList(kind: PortEventType, ports: seq<string>)
    ensures Reconcile(kind, ports, ports) == Outcome(ports, None)
  {
  }

  /**
   * An insertion raises an event exactly when `current` holds a port the
   * snapshot lacks; the port reported is the first such port of
   * `current`, and the snapshot becomes exactly `current`.
   */
  lemma InsertionReportsFirstNewPort(stored: seq<string>, current: seq<string>)
    ensures var r := Reconcile(Insertion, stored, current);
      (r.event.Some? <==> exists p :: p in current && p !in stored) &&
      (r.event.Some? ==>
         r.snapshot == current && r.event.value.kind == Insertion &&
         exists i :: 0 <= i < |current| && current[i] == r.event.value.port && current[i] !in stored &&
                     forall j :: 0 <= j < i ==> current[j] in stored) &&
      (r.event.None? ==> r.snapshot == stored)
  {
  }

  /**
   * An insertion whose list differs from the snapshot only by order or
   * by missing ports raises nothing and keeps the old snapshot, so the
   * stored order and the lost ports stay as they were.
   */
  lemma InsertionIgnoresReorderAndLoss(stored: seq<string>, current: seq<string>)
    requires forall p :: p in current ==> p in stored
    ensures Reconcile(Insertion, stored, current) == Outcome(stored, None)
  {
  }

  /**
   * A removal raises an event exactly when the snapshot holds a port
   * `current` lacks; the port reported is the first such port of the
   * snapshot, and the snapshot becomes exactly `current`.
   */
  lemma RemovalReportsFirstLostPort(stored: seq<string>, current: seq<string>)
    ensures var r := Reconcile(Removal, stored, current);
      (r.event.Some? <==> exists p :: p in stored && p !in current) &&
      (r.event.Some? ==>
         r.snapshot == current && r.event.value.kind == Removal &&
         exists i :: 0 <= i < |stored| && stored[i] == r.event.value.port && stored[i] !in current &&
                     forall j :: 0 <= j < i ==> stored[j] in current) &&
      (r.event.None? ==> r.snapshot == stored)
  {
  }

  /**
   * A removal has no sequence-equality check: a list that only adds or
   * reorders ports raises nothing and leaves the snapshot stale, without
   * the added ports.
   */
  lemma RemovalIgnoresAdditions(stored: seq<string>, current: seq<string>)
    requires forall p :: p in stored ==> p in current
    ensures Reconcile(Removal, stored, current) == Outcome(stored, None)
  {
  }

  /**
   * A second callback of the same kind that sees the same list raises
   * nothing: once a callback has reported, the change it absorbed is gone.
   */
  lemma ReconcileIsIdempotent(kind: PortEventType, stored: seq<string>, current: seq<string>)
    ensures var r := Reconcile(kind, stored, current);
      Reconcile(kind, r.snapshot, current) == Outcome(r.snapshot, None)
  {
  }

  /**
   * However many ports were added, an insertion reports only the first
   * of them and then holds all of them in its snapshot, so a repeated
   * insertion with the same list reports none of the others.
   */
  lemma OneEventForManyInsertions(stored: seq<string>, current: seq<string>, p: string, q: string)
    requires p in current && p !in stored
    requires q in current && q !in stored
    requires p != q
    ensures var r := Reconcile(Insertion, stored, current);
      r.event.Some? && r.snapshot == current &&
      FirstAbsent(current, stored).Some? &&
      r.event.value.port == current[FirstAbsent(current, stored).value] &&
      p in r.snapshot && q in r.snapshot &&
      Reconcile(Insertion, r.snapshot, current).event == None
  {
  }

  /**
   * However many ports were lost, a removal reports only the first of
   * them and then drops all of them from its snapshot, so a repeated
   * removal with the same list reports none of the others.
   */
  lemma OneEventForManyRemovals(stored: seq<string>, current: seq<string>, p: string, q: string)
    requires p in stored && p !in current
    requires q in stored && q !in current
    requires p != q
    ensures var r := Reconcile(Removal, stored, current);
      r.event.Some? && r.snapshot == current &&
      FirstAbsent(stored, current).Some? &&
      r.event.value.port == stored[FirstAbsent(stored, current).value] &&
      p !in r.snapshot && q !in r.snapshot &&
      Reconcile(Removal, r.snapshot, current).event == None
  {
  }

  /**
   * An insertion that sees a new port and also a vanished one takes the
   * new list as its snapshot, so the following removal callback with the
   * same list finds nothing to report: the vanished port is never reported.
   */
  lemma InsertionMasksRemoval(stored: seq<string>, current: seq<string>, added: string, gone: string)
    requires added in current && added !in stored
    requires gone in stored && gone !in current
    ensures var r := Reconcile(Insertion, stored, current);
      r.event.Some? && r.snapshot == current &&
      Reconcile(Removal, r.snapshot, current).event == None
  {
  }

  /** The same hiding in the other order: a removal absorbs a port added at the same time. */
  lemma RemovalMasksInsertion(stored: seq<string>, current: seq<string>, added: string, gone: string)
    requires added in current && added !in stored
    requires gone in stored && gone !in current
    ensures var r := Reconcile(Removal, stored, current);
      r.event.Some? && r.snapshot == current &&
      Reconcile(Insertion, r.snapshot, current).event == None
  {
  }

  /** COM3 plugged in next to COM1 and COM2 is reported, and the snapshot takes all three. */
  lemma InsertionScenario()
    ensures Reconcile(Insertion, ["COM1", "COM2"], ["COM1", "COM2", "COM3"]) ==
            Outcome(["COM1", "COM2", "COM3"], Some(PortEvent(Insertion, "COM3")))
  {
  }

  /** COM2 unplugged, leaving COM1, is reported and the snapshot shrinks to COM1. */
  lemma RemovalScenario()
    ensures Reconcile(Removal, ["COM1", "COM2"], ["COM1"]) ==
            Outcome(["COM1"], Some(PortEvent(Removal, "COM2")))
  {
  }
}
