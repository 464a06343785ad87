/** What one event leads to, for every row, configuration and answer of the forge: when it makes
    a ticket, when it comments or reopens, and what a reservation and a failed create leave. */
module IngestAnswers {
  import opened Basics
  import opened Models
  import opened IngestStore
  import opened PipelineSpec

  /** The fingerprint's count once the event is claimed. */
  function CountOf(st: Store, ev: LogEvent): nat {
    (if ev.fp in st.fps then st.fps[ev.fp].occurrences else 0)
    + (if ev.id in st.events && st.events[ev.id].counted then 0 else 1)
  }

  /** The row the claim alone leaves: this is what "nothing happens" means. */
  function Counted(st: Store, ev: LogEvent): Fingerprint {
    if ev.fp in st.fps then st.fps[ev.fp].(severity := ev.severity, occurrences := CountOf(st, ev))
    else Fingerprint(ev.fp, ev.service, ev.severity, CountOf(st, ev), New, None, 0, None)
  }

  /** Work is under way, or a human wants quiet. */
  predicate Muted(state: WorkState) {
    state == QueuedRca || state == Investigating || state == Fixing || state == Verifying
    || state == Dropped || state == ClosedHuman
  }

  /** The event is an error that somebody has to hear of. */
  predicate Alarming(ev: LogEvent, state: WorkState, count: nat, env: Env) {
    && (ev.severity == Severity.Error || ev.severity == Critical)
    && !Muted(state)
    && (ev.severity == Critical || count >= env.cfg.immediateCount || env.rateInWindow >= env.cfg.ratePerMin)
  }

  predicate Fresh(st: Store, ev: LogEvent) { ev.id in st.events ==> !st.events[ev.id].dispatched }

  /** The pass ends normally, journals the event, and leaves this row and this ledger. */
  predicate Leaves(p: Proc, ev: LogEvent, env: Env, row: Fingerprint, ledger: Ledger) {
    var q := HandleEvent(p, ev, env);
    && q.mode.Running?
    && ev.id in q.store.events && q.store.events[ev.id].dispatched && q.store.events[ev.id].counted
    && ev.fp in q.store.fps && q.store.fps[ev.fp] == row && q.forge[ev.fp] == ledger
  }

  /** The pass raises and leaves this row and this ledger. */
  predicate RaisesWith(p: Proc, ev: LogEvent, env: Env, row: Fingerprint, ledger: Ledger) {
    var q := HandleEvent(p, ev, env);
    q.mode.Raised? && ev.fp in q.store.fps && q.store.fps[ev.fp] == row && q.forge[ev.fp] == ledger
  }

  // --- from the fingerprint to the pass ----------------------------------------------------------

  function CellFor(p: Proc, ev: LogEvent): Cell
    requires p.ops > 0
  {
    Cell(Counted(p.store, ev), p.forge[ev.fp], Running, p.ops - 1, p.stop)
  }

  lemma ClaimedCell(p: Proc, ev: LogEvent)
    requires p.mode.Running? && p.ops > 0
    ensures var p1 := Write(p, Claim(p.store, ev)); ev.fp in p1.store.fps && CellOf(p1, ev.fp) == CellFor(p, ev)
    ensures ev.id in Claim(p.store, ev).events && Claim(p.store, ev).events[ev.id].counted
    ensures Claim(p.store, ev).events[ev.id].dispatched <==> !Fresh(p.store, ev)
  {
  }

  lemma PassIs(p: Proc, ev: LogEvent, env: Env)
    requires p.mode.Running? && p.ops > 0 && Fresh(p.store, ev)
    ensures var d := Dispatch(CellFor(p, ev), ev.service, env);
      && (d.mode.Running? && d.ops > 0 ==> Leaves(p, ev, env, d.row, d.ledger))
      && (d.mode.Raised? ==> RaisesWith(p, ev, env, d.row, d.ledger))
  {
    ClaimedCell(p, ev);
    var p1 := Write(p, Claim(p.store, ev));
    var d := Dispatch(CellFor(p, ev), ev.service, env);
    var q := PutCell(p1, ev.fp, d);
    assert q.store.fps[ev.fp] == d.row && q.forge[ev.fp] == d.ledger;
    assert q.store.events == Claim(p.store, ev).events;
  }

  // --- one fingerprint ------------------------------------------------------------------------

  function Landed(l: Ledger): Ledger { l.(landed := l.landed + 1) }

  function StateWhenReserved(env: Env): WorkState { if env.cfg.autonomy == Observe then Open else QueuedRca }

  function Ticketed(row: Fingerprint, env: Env): Fingerprint
    requires env.create.Accepted?
  {
    row.(state := StateWhenReserved(env), ticket := Some(env.create.ref))
  }

  lemma QuietCell(c: Cell, ev: LogEvent, env: Env)
    requires c.mode.Running? && (c.row.ticket.Some? || c.row.reservedAt.None?) && c.row.severity == ev.severity
    requires !Alarming(ev, c.row.state, c.row.occurrences, env)
    ensures Dispatch(c, ev.service, env) == c
  {
  }

  lemma AlarmedCell(c: Cell, ev: LogEvent, env: Env)
    requires c.mode.Running? && (c.row.ticket.Some? || c.row.reservedAt.None?) && c.row.severity == ev.severity
    requires Alarming(ev, c.row.state, c.row.occurrences, env)
    ensures var stored := c.row.(service := ev.service);
      Dispatch(c, ev.service, env)
        == if c.row.ticket.None? then CreateTicket(c, stored, env) else UpdateTicket(c, stored, env)
  {
  }

  lemma TicketedCell(c: Cell, ev: LogEvent, env: Env)
    requires c.mode.Running? && c.ops >= 3 && c.row.ticket.None? && c.row.reservedAt.None?
    requires c.row.severity == ev.severity && Alarming(ev, c.row.state, c.row.occurrences, env)
    requires env.ticketsThisHour <= env.cfg.maxTicketsPerHour && env.create.Accepted?
    ensures var d := Dispatch(c, ev.service, env);
      && d.mode.Running? && d.ops > c.ops - 4
      && d.row == Ticketed(c.row, env)
      && d.ledger == Landed(c.ledger)
  {
    AlarmedCell(c, ev, env);
  }

  // --- what wakes ----------------------------------------------------------------------------------

  /** An event of a fingerprint without ticket or reservation, with writes and the forge working
      and room under the hourly cap: exactly an alarming one makes a ticket and binds it; any
      other only counts.  Working writes are the claim, the reservation, the binding, its audit
      entry and the journal. */
  lemma TicketedIff(p: Proc, ev: LogEvent, env: Env)
    requires p.mode.Running? && p.ops >= 5 && Fresh(p.store, ev)
    requires ev.fp in p.store.fps ==> p.store.fps[ev.fp].ticket.None? && p.store.fps[ev.fp].reservedAt.None?
    requires env.ticketsThisHour <= env.cfg.maxTicketsPerHour && env.create.Accepted?
    ensures var row := Counted(p.store, ev);
      if Alarming(ev, row.state, row.occurrences, env)
      then Leaves(p, ev, env, Ticketed(row, env), Landed(p.forge[ev.fp]))
      else Leaves(p, ev, env, row, p.forge[ev.fp])
  {
    var c := CellFor(p, ev);
    PassIs(p, ev, env);
    if Alarming(ev, c.row.state, c.row.occurrences, env) {
      TicketedCell(c, ev, env);
    } else {
      QuietCell(c, ev, env);
    }
  }

  /** With the hourly cap exceeded even an alarming event only counts. */
  lemma CappedOnlyCounts(p: Proc, ev: LogEvent, env: Env)
    requires p.mode.Running? && p.ops >= 2 && Fresh(p.store, ev)
    requires ev.fp in p.store.fps ==> p.store.fps[ev.fp].ticket.None? && p.store.fps[ev.fp].reservedAt.None?
    requires env.ticketsThisHour > env.cfg.maxTicketsPerHour
    ensures Leaves(p, ev, env, Counted(p.store, ev), p.forge[ev.fp])
  {
    var c := CellFor(p, ev);
    PassIs(p, ev, env);
    if Alarming(ev, c.row.state, c.row.occurrences, env) {
      AlarmedCell(c, ev, env);
    } else {
      QuietCell(c, ev, env);
    }
  }

  /** An event whose policy already ran is counted at most once more and does nothing else. */
  lemma DispatchedOnlyCounts(p: Proc, ev: LogEvent, env: Env)
    requires p.mode.Running? && p.ops >= 1 && !Fresh(p.store, ev)
    ensures Leaves(p, ev, env, Counted(p.store, ev), p.forge[ev.fp])
  {
    ClaimedCell(p, ev);
  }

  /** No event touches another fingerprint. */
  lemma OthersUntouched(p: Proc, ev: LogEvent, env: Env, h: FpHash)
    requires h != ev.fp
    ensures var q := HandleEvent(p, ev, env);
      && q.forge[h] == p.forge[h]
      && (h in q.store.fps <==> h in p.store.fps)
      && (h in p.store.fps ==> q.store.fps[h] == p.store.fps[h])
  {
  }

  // --- recurrences ----------------------------------------------------------------------------------

  lemma RecurringCell(c: Cell, ev: LogEvent, env: Env)
    requires c.mode.Running? && c.ops >= 1 && c.row.ticket.Some? && c.row.severity == ev.severity && env.call.Done?
    requires Alarming(ev, c.row.state, c.row.occurrences, env)
    ensures var d := Dispatch(c, ev.service, env);
      && d.mode.Running? && d.ops >= c.ops - 1
      && (if c.row.state == ClosedAuto then d.row == c.row.(state := Reopened) && d.ledger == c.ledger
          else if c.row.occurrences >= 4 && c.row.occurrences >= 2 * c.row.commentedAt
          then d.row == c.row.(commentedAt := c.row.occurrences) && d.ledger == Commented(c.ledger)
          else d == c)
  {
    AlarmedCell(c, ev, env);
  }

  function Commented(l: Ledger): Ledger { l.(posted := l.posted + 1, persisted := l.persisted + 1) }

  /** An event of a fingerprint with a ticket never makes another.  An alarming one reopens a
      ticket closed for silence; on one not closed so it comments exactly when the count is at
      least four and at least twice what it was at the last comment. */
  lemma RecurrenceIs(p: Proc, ev: LogEvent, env: Env)
    requires p.mode.Running? && p.ops >= 3 && Fresh(p.store, ev) && env.call.Done?
    requires ev.fp in p.store.fps && p.store.fps[ev.fp].ticket.Some?
    ensures var row, ledger := Counted(p.store, ev), p.forge[ev.fp];
      if !Alarming(ev, row.state, row.occurrences, env) then Leaves(p, ev, env, row, ledger)
      else if row.state == ClosedAuto then Leaves(p, ev, env, row.(state := Reopened), ledger)
      else if row.occurrences >= 4 && row.occurrences >= 2 * row.commentedAt
      then Leaves(p, ev, env, row.(commentedAt := row.occurrences), Commented(ledger))
      else Leaves(p, ev, env, row, ledger)
  {
    var c := CellFor(p, ev);
    PassIs(p, ev, env);
    if Alarming(ev, c.row.state, c.row.occurrences, env) {
      RecurringCell(c, ev, env);
    } else {
      QuietCell(c, ev, env);
    }
  }

  // --- reservations -----------------------------------------------------------------------------------

  /** An unbound reservation two minutes old, in one of the states a reservation leaves. */
  predicate Interrupted(row: Fingerprint, now: int) {
    && row.ticket.None? && row.reservedAt.Some? && (row.state == QueuedRca || row.state == Open)
    && now - row.reservedAt.value >= 120
  }

  predicate Reported(env: Env, ledger: Ledger) { env.staleLookup.Found? && ledger.landed > 0 }

  function BoundTo(row: Fingerprint, ref: TicketRef): Fingerprint { row.(ticket := Some(ref), reservedAt := None) }

  lemma ReportedCell(c: Cell, ev: LogEvent, env: Env)
    requires c.mode.Running? && c.ops >= 3 && c.row.severity == ev.severity && Interrupted(c.row, env.now)
    requires Reported(env, c.ledger) && env.call.Done?
    ensures var d, row := Dispatch(c, ev.service, env), BoundTo(c.row, env.staleLookup.ref);
      && d.mode.Running? && d.ops >= c.ops - 3
      && (if Alarming(ev, row.state, row.occurrences, env) && row.occurrences >= 4
             && row.occurrences >= 2 * row.commentedAt
          then d.row == row.(commentedAt := row.occurrences) && d.ledger == Commented(c.ledger)
          else d.row == row && d.ledger == c.ledger)
  {
  }

  /** An interrupted reservation whose ticket the forge reports is bound to it, no other ticket is
      made, and the event then counts as for a fingerprint with that ticket. */
  lemma InterruptedIsBound(p: Proc, ev: LogEvent, env: Env)
    requires p.mode.Running? && p.ops >= 5 && Fresh(p.store, ev) && env.call.Done?
    requires ev.fp in p.store.fps && Interrupted(p.store.fps[ev.fp], env.now) && Reported(env, p.forge[ev.fp])
    ensures var row := BoundTo(Counted(p.store, ev), env.staleLookup.ref);
      if Alarming(ev, row.state, row.occurrences, env) && row.occurrences >= 4 && row.occurrences >= 2 * row.commentedAt
      then Leaves(p, ev, env, row.(commentedAt := row.occurrences), Commented(p.forge[ev.fp]))
      else Leaves(p, ev, env, row, p.forge[ev.fp])
  {
    PassIs(p, ev, env);
    ReportedCell(CellFor(p, ev), ev, env);
  }

  lemma RearmedCell(c: Cell, ev: LogEvent, env: Env)
    requires c.mode.Running? && c.ops >= 1 && Interrupted(c.row, env.now)
    requires !Reported(env, c.ledger) && !env.staleLookup.LookupDied?
    ensures Dispatch(c, ev.service, env)
         == Dispatch(c.(row := c.row.(state := New, reservedAt := None), ops := c.ops - 1), ev.service, env)
  {
  }

  /** One whose ticket the forge does not report is armed again, and the event then counts as
      for a new fingerprint. */
  lemma InterruptedIsRearmed(p: Proc, ev: LogEvent, env: Env)
    requires p.mode.Running? && p.ops >= 6 && Fresh(p.store, ev)
    requires ev.fp in p.store.fps && Interrupted(p.store.fps[ev.fp], env.now)
    requires !Reported(env, p.forge[ev.fp]) && !env.staleLookup.LookupDied?
    requires env.ticketsThisHour <= env.cfg.maxTicketsPerHour && env.create.Accepted?
    ensures var row := Counted(p.store, ev).(state := New, reservedAt := None);
      if Alarming(ev, New, row.occurrences, env)
      then Leaves(p, ev, env, Ticketed(row, env), Landed(p.forge[ev.fp]))
      else Leaves(p, ev, env, row, p.forge[ev.fp])
  {
    var c := CellFor(p, ev);
    PassIs(p, ev, env);
    RearmedCell(c, ev, env);
    var armed := c.(row := c.row.(state := New, reservedAt := None), ops := c.ops - 1);
    if Alarming(ev, New, c.row.occurrences, env) {
      TicketedCell(armed, ev, env);
    } else {
      QuietCell(armed, ev, env);
    }
  }

  /** A reservation younger than two minutes is left to its owner while it is queued. */
  lemma FreshReservationWaits(p: Proc, ev: LogEvent, env: Env)
    requires p.mode.Running? && p.ops >= 2 && Fresh(p.store, ev)
    requires ev.fp in p.store.fps && p.store.fps[ev.fp].ticket.None? && p.store.fps[ev.fp].state == QueuedRca
    requires p.store.fps[ev.fp].reservedAt.Some? && env.now - p.store.fps[ev.fp].reservedAt.value < 120
    ensures Leaves(p, ev, env, Counted(p.store, ev), p.forge[ev.fp])
  {
    PassIs(p, ev, env);
  }

  // --- creates that fail --------------------------------------------------------------------------------

  /** The failures that leave open whether the forge took the ticket: it could not be reached, or
      answered with a server error or with no status. */
  predicate LeavesOpen(exc: ForgeException) {
    exc == Unreachable || (exc.ForgeError? && (exc.status == None || exc.status.value >= 500))
  }

  lemma FailedCell(c: Cell, ev: LogEvent, env: Env)
    requires c.mode.Running? && c.ops >= 3 && c.row.ticket.None? && c.row.reservedAt.None?
    requires c.row.severity == ev.severity && Alarming(ev, c.row.state, c.row.occurrences, env)
    requires env.ticketsThisHour <= env.cfg.maxTicketsPerHour && HonestForge(env)
    requires env.create.CreateFailed? && !env.lookup.LookupDied?
    ensures var d := Dispatch(c, ev.service, env);
      var landed := c.ledger.landed + if env.create.landed then 1 else 0;
      var reserved := c.row.(state := StateWhenReserved(env), reservedAt := Some(env.now));
      && d.ledger.landed == landed
      && (if !LeavesOpen(env.create.exc)
          then !env.create.landed && d.mode.Raised? && d.row == c.row.(state := New)
          else if env.lookup.Found? && landed > 0
          then d.mode.Running? && d.ops >= c.ops - 3
               && d.row == reserved.(ticket := Some(env.lookup.ref), reservedAt := None)
          else d.mode.Raised? && d.row == reserved)
  {
    AlarmedCell(c, ev, env);
  }

  /** A failed create: a definite refusal gives the reservation back; an open one whose ticket the
      forge then reports is bound to it; any other keeps the reservation.  The last and the
      first raise, so that the delivery is tried again. */
  lemma FailedCreateLeaves(p: Proc, ev: LogEvent, env: Env)
    requires p.mode.Running? && p.ops >= 5 && Fresh(p.store, ev)
    requires ev.fp in p.store.fps ==> p.store.fps[ev.fp].ticket.None? && p.store.fps[ev.fp].reservedAt.None?
    requires var row := Counted(p.store, ev); Alarming(ev, row.state, row.occurrences, env)
    requires env.ticketsThisHour <= env.cfg.maxTicketsPerHour && HonestForge(env)
    requires env.create.CreateFailed? && !env.lookup.LookupDied?
    ensures var q, row := HandleEvent(p, ev, env), Counted(p.store, ev);
      var landed := p.forge[ev.fp].landed + if env.create.landed then 1 else 0;
      var reserved := row.(state := StateWhenReserved(env), reservedAt := Some(env.now));
      && q.forge[ev.fp].landed == landed
      && (if !LeavesOpen(env.create.exc) then RaisesWith(p, ev, env, row.(state := New), q.forge[ev.fp])
          else if env.lookup.Found? && landed > 0
          then Leaves(p, ev, env, reserved.(ticket := Some(env.lookup.ref), reservedAt := None), q.forge[ev.fp])
          else RaisesWith(p, ev, env, reserved, q.forge[ev.fp]))
  {
    PassIs(p, ev, env);
    FailedCell(CellFor(p, ev), ev, env);
  }

  /** The pass stops the way the process does, and leaves this row and this ledger. */
  predicate HaltsWith(p: Proc, ev: LogEvent, env: Env, mode: Mode, row: Fingerprint, ledger: Ledger) {
    var q := HandleEvent(p, ev, env);
    q.mode == mode && ev.fp in q.store.fps && q.store.fps[ev.fp] == row && q.forge[ev.fp] == ledger
  }

  lemma HaltIs(p: Proc, ev: LogEvent, env: Env)
    requires p.mode.Running? && p.ops > 0 && Fresh(p.store, ev)
    ensures var d := Dispatch(CellFor(p, ev), ev.service, env);
      !d.mode.Running? ==> HaltsWith(p, ev, env, d.mode, d.row, d.ledger)
  {
    ClaimedCell(p, ev);
    var p1 := Write(p, Claim(p.store, ev));
    var d := Dispatch(CellFor(p, ev), ev.service, env);
    assert PutCell(p1, ev.fp, d).store.fps[ev.fp] == d.row && PutCell(p1, ev.fp, d).forge[ev.fp] == d.ledger;
  }

  /** The reservation comes first: without its write the forge is not called, and a pass cut off
      in the call, or before the binding is written, leaves the reservation behind. */
  lemma CutOffLeaves(p: Proc, ev: LogEvent, env: Env)
    requires p.mode.Running? && 1 <= p.ops && Fresh(p.store, ev)
    requires ev.fp in p.store.fps ==> p.store.fps[ev.fp].ticket.None? && p.store.fps[ev.fp].reservedAt.None?
    requires var row := Counted(p.store, ev); Alarming(ev, row.state, row.occurrences, env)
    requires env.ticketsThisHour <= env.cfg.maxTicketsPerHour
    ensures var row, ledger := Counted(p.store, ev), p.forge[ev.fp];
      var reserved := row.(state := StateWhenReserved(env), reservedAt := Some(env.now));
      var lost := Landed(ledger).(lost := ledger.lost + 1);
      && (p.ops == 1 ==> HaltsWith(p, ev, env, p.stop, row, ledger))
      && (p.ops >= 2 && env.create.CreateDied? ==>
            HaltsWith(p, ev, env, Crashed, reserved, if env.create.landed then lost else ledger))
      && (p.ops == 2 && env.create.Accepted? ==> HaltsWith(p, ev, env, p.stop, reserved, lost))
  {
    HaltIs(p, ev, env);
    AlarmedCell(CellFor(p, ev), ev, env);
  }
}
