/** The event and fingerprint tables as values, and what each transaction does to them. */
module IngestStore {
  import opened Basics
  import opened Models

  datatype EventRow = EventRow(counted: bool, dispatched: bool, fp: Option<FpHash>)

  datatype Store = Store(events: map<EventId, EventRow>, fps: map<FpHash, Fingerprint>)

  const EMPTY_STORE := Store(map[], map[])

  // --- events and fingerprints ------------------------------------------------

  function Upsert(fps: map<FpHash, Fingerprint>, ev: LogEvent, delta: nat): map<FpHash, Fingerprint> {
    if ev.fp in fps then
      var row := fps[ev.fp];
      fps[ev.fp := row.(severity := ev.severity, occurrences := row.occurrences + delta)]
    else
      fps[ev.fp := Fingerprint(ev.fp, ev.service, ev.severity, delta, New, None, 0, None)]
  }

  /** The fingerprint an event is turned into before it is counted. */
  function FromEvent(ev: LogEvent): Fingerprint {
    Fingerprint(ev.fp, ev.service, ev.severity, 0, New, None, 0, None)
  }

  /** The occurrence upsert for any incoming fingerprint: a new one is inserted as it comes, of
      a known one only the severity and the count change. */
  function Merged(fps: map<FpHash, Fingerprint>, incoming: Fingerprint, delta: nat): map<FpHash, Fingerprint> {
    var h := incoming.hash;
    if h in fps then fps[h := fps[h].(severity := incoming.severity, occurrences := fps[h].occurrences + delta)]
    else fps[h := incoming.(occurrences := incoming.occurrences + delta)]
  }

  /** A full row write: an existing row keeps its service. */
  function Stored(fps: map<FpHash, Fingerprint>, f: Fingerprint): map<FpHash, Fingerprint> {
    fps[f.hash := if f.hash in fps then f.(service := fps[f.hash].service) else f]
  }

  function EventRowOf(st: Store, id: EventId): EventRow {
    if id in st.events then st.events[id] else EventRow(false, false, None)
  }

  function Claim(st: Store, ev: LogEvent): Store {
    var row := EventRowOf(st, ev.id);
    if row.counted then
      st.(events := st.events[ev.id := row], fps := Upsert(st.fps, ev, 0))
    else
      st.(events := st.events[ev.id := row.(counted := true, fp := Some(ev.fp))],
      fps := Upsert(st.fps, ev, 1))
  }

  function MarkDispatched(st: Store, id: EventId): Store {
    if id in st.events then st.(events := st.events[id := st.events[id].(dispatched := true)]) else st
  }

  function Rearmed(f: Fingerprint): Fingerprint {
    if f.ticket.None? && f.reservedAt.Some? then f.(state := New, reservedAt := None) else f
  }

  /** Start-up recovery: every unbound reservation is re-armed without asking the forge. */
  function Recover(st: Store): Store { st.(fps := map h | h in st.fps :: Rearmed(st.fps[h])) }
}
