/** What one pass of the pipeline keeps, however it ends. */
module PipelineProofs {
  import opened Basics
  import opened Models
  import opened IngestStore
  import opened PipelineSpec

  // --- the invariants of one fingerprint -----------------------------------------------

  /** Tickets at the forge are the bound one and those a fault hit. */
  predicate TicketOk(f: Fingerprint, l: Ledger) {
    l.landed <= l.lost + if f.ticket.Some? then 1 else 0
  }

  /** Each remembered comment doubled the throttle anchor, which never passes the count. */
  predicate CommentOk(f: Fingerprint, l: Ledger) {
    && l.posted == l.persisted + l.unsaved
    && f.commentedAt <= f.occurrences
    && (l.persisted == 0 ==> f.commentedAt == 0)
    && (l.persisted > 0 ==> Pow2(l.persisted + 1) <= f.commentedAt)
  }

  predicate Good(c: Cell) {
    TicketOk(c.row, c.ledger) && CommentOk(c.row, c.ledger)
  }

  /** Neither the identity, nor the count, nor the severity, nor a bound ticket changes, and a bound
      fingerprint never makes another ticket. */
  predicate Keeps(c: Cell, d: Cell) {
    && d.row.hash == c.row.hash
    && d.row.occurrences == c.row.occurrences
    && d.row.severity == c.row.severity
    && d.ledger.lost >= c.ledger.lost
    && d.ledger.landed >= c.ledger.landed
    && (c.row.ticket.Some? ==> d.row.ticket == c.row.ticket && d.ledger.landed == c.ledger.landed)
  }

  /** `f` is the row except for `service`, which no write changes. */
  predicate Fresh(c: Cell, f: Fingerprint) {
    f == c.row.(service := f.service)
  }

  lemma RecoverKeeps(c: Cell, stored: Fingerprint, env: Env)
    requires Good(c) && Fresh(c, stored)
    ensures var d := RecoverInterrupted(c, stored, env); Keeps(c, d) && Good(d)
  {
  }

  /** The cell once the create call has had its effect at the forge. */
  function Answered(c: Cell, reply: CreateReply): Cell {
    if ReplyLanded(reply) then Land(c) else c
  }

  lemma FailedCreateKeeps(c: Cell, stored: Fingerprint, reserved: Fingerprint, env: Env)
    requires HonestForge(env) && env.create.CreateFailed?
    requires Good(c) && c.mode.Running? && stored.ticket.None?
    requires reserved == stored.(state := reserved.state, reservedAt := reserved.reservedAt)
    requires Fresh(c, reserved)
    ensures var d := AfterFailedCreate(Answered(c, env.create), stored, reserved, env); Keeps(c, d) && Good(d)
  {
  }

  lemma CreateKeeps(c: Cell, stored: Fingerprint, env: Env)
    requires HonestForge(env) && Good(c) && Fresh(c, stored) && stored.ticket.None?
    ensures var d := CreateTicket(c, stored, env); Keeps(c, d) && Good(d)
  {
    var c1 := Save(c, Reserve(stored, env));
    if c1.mode.Running? && env.create.CreateFailed? {
      FailedCreateKeeps(c1, stored, Reserve(stored, env), env);
    }
  }

  lemma UpdateKeeps(c: Cell, stored: Fingerprint, env: Env)
    requires Good(c) && Fresh(c, stored)
    ensures var d := UpdateTicket(c, stored, env); Keeps(c, d) && Good(d)
  {
    if c.ledger.persisted == 0 {
      assert Pow2(2) == 2 * Pow2(1) == 4 * Pow2(0);
    }
  }

  lemma DispatchKeeps(c: Cell, service: string, env: Env)
    requires HonestForge(env) && Good(c)
    ensures var d := Dispatch(c, service, env); Keeps(c, d) && Good(d)
  {
    RecoverKeeps(c, StoredFor(c, service), env);
    var c1 := RecoverInterrupted(c, StoredFor(c, service), env);
    var stored := StoredFor(c1, service);
    if stored.ticket.None? { CreateKeeps(c1, stored, env); } else { UpdateKeeps(c1, stored, env); }
  }

  /** A fault: the ticket landed, and then the process or a write failed, or the reply was
      ambiguous and the lookup that follows did not report the ticket. */
  predicate TicketFault(env: Env, stop: Halt, mode: Mode, ops: nat) {
    && ReplyLanded(env.create)
    && (|| (mode == stop && ops == 0)
        || env.create.CreateDied?
        || (env.create.CreateFailed? && env.lookup.LookupDied?)
        || (env.create.CreateFailed? && IsAmbiguousWrite(env.create.exc) && !env.lookup.Found?))
  }

  /** `d` lost no ticket, or lost the one this pass landed to a fault that ended it. */
  predicate LosesOnlyByFault(c: Cell, d: Cell, env: Env) {
    d.ledger.lost == c.ledger.lost
    || (&& d.ledger.lost == c.ledger.lost + 1 && d.ledger.landed == c.ledger.landed + 1
        && d.row.ticket.None? && !d.mode.Running? && TicketFault(env, c.stop, d.mode, d.ops))
  }

  lemma FailedCreateLoses(c: Cell, stored: Fingerprint, reserved: Fingerprint, env: Env)
    requires HonestForge(env) && c.mode.Running? && env.create.CreateFailed?
    requires c.row.ticket.None? && stored.ticket.None?
    ensures LosesOnlyByFault(c, AfterFailedCreate(Answered(c, env.create), stored, reserved, env), env)
  {
  }

  lemma CreateLoses(c: Cell, stored: Fingerprint, env: Env)
    requires HonestForge(env) && c.mode.Running? && Fresh(c, stored) && stored.ticket.None?
    ensures LosesOnlyByFault(c, CreateTicket(c, stored, env), env)
  {
    var c1 := Save(c, Reserve(stored, env));
    if c1.mode.Running? && env.create.CreateFailed? {
      FailedCreateLoses(c1, stored, Reserve(stored, env), env);
    }
  }

  /** A pass loses at most one ticket, one it just made the forge accept, and only to a fault. */
  lemma LostOnlyByFault(c: Cell, service: string, env: Env)
    requires HonestForge(env) && c.mode.Running?
    ensures LosesOnlyByFault(c, Dispatch(c, service, env), env)
  {
    var c1 := RecoverInterrupted(c, StoredFor(c, service), env);
    assert c1.ledger == c.ledger && c1.stop == c.stop;
    if c1.mode.Running? && c1.row.ticket.None? { CreateLoses(c1, StoredFor(c1, service), env); }
  }

  // --- counting ------------------------------------------------------------------------

  /** The ids of the stored events counted for `h`. */
  function CountedFor(events: map<EventId, EventRow>, h: FpHash): set<EventId> {
    set id | id in events && events[id].fp == Some(h)
  }

  ghost predicate CountOk(st: Store) {
    && (forall id | id in st.events :: st.events[id].counted <==> st.events[id].fp.Some?)
    && (forall id | id in st.events :: st.events[id].dispatched ==> st.events[id].counted)
    && (forall h | h in st.fps :: st.fps[h].occurrences == |CountedFor(st.events, h)|)
    && (forall id | id in st.events && st.events[id].fp.Some? :: st.events[id].fp.value in st.fps)
  }

  lemma CountedForUnknown(st: Store, h: FpHash)
    requires CountOk(st) && h !in st.fps
    ensures CountedFor(st.events, h) == {}
  {
  }

  /** Rewriting one row moves its id in or out of the sets of the counted. */
  lemma CountedForUpdate(events: map<EventId, EventRow>, id: EventId, row: EventRow, h: FpHash)
    requires id in events ==> events[id].fp.None? || events[id].fp == row.fp
    ensures CountedFor(events[id := row], h) ==
      if row.fp == Some(h) then CountedFor(events, h) + {id} else CountedFor(events, h)
  {
  }

  lemma ClaimCountsOne(st: Store, ev: LogEvent, h: FpHash)
    requires CountOk(st) && (h in st.fps || h == ev.fp)
    ensures var st' := Claim(st, ev); st'.fps[h].occurrences == |CountedFor(st'.events, h)|
  {
    CountedForUpdate(st.events, ev.id, Claim(st, ev).events[ev.id], h);
    if EventRowOf(st, ev.id).counted {
      assert st.events[ev.id := st.events[ev.id]] == st.events;
    }
    if ev.fp !in st.fps { CountedForUnknown(st, ev.fp); }
  }

  /** Claiming is exactly-once counting, whatever the id or the content was before. */
  lemma ClaimCounts(st: Store, ev: LogEvent)
    requires CountOk(st)
    ensures CountOk(Claim(st, ev))
  {
    forall h | h in st.fps || h == ev.fp { ClaimCountsOne(st, ev, h); }
  }

  lemma MarkCounts(st: Store, id: EventId)
    requires CountOk(st) && (id in st.events ==> st.events[id].counted)
    ensures CountOk(MarkDispatched(st, id))
  {
    var st' := MarkDispatched(st, id);
    forall h ensures CountedFor(st'.events, h) == CountedFor(st.events, h) {
    }
  }
}
