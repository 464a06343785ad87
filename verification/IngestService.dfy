/** The ingest code in its own form: a storage object whose methods are transactions, a
    forge, and the pipeline that sequences them.  Each method is tied to the specification
    of one pass, which is what the run theorems are about. */
module IngestService {
  import opened Basics
  import opened Models
  import opened IngestStore
  import opened PipelineSpec
  import Q = DeliveryQueue

  class SQLiteStorage {
    var events: map<EventId, EventRow>
    var fps: map<FpHash, Fingerprint>
    var deliveries: seq<Q.DeliveryRow>

    // The fate of the process: transactions still to succeed, and how the next one fails.
    var mode: Mode
    var ops: nat
    var stop: Halt

    constructor (ops: nat, stop: Halt)
      ensures events == map[] && fps == map[] && deliveries == []
      ensures mode.Running? && this.ops == ops && this.stop == stop
    {
      events, fps, deliveries := map[], map[], [];
      mode, this.ops, this.stop := Running, ops, stop;
    }

    function Tables(): Store
      reads this
    {
      Store(events, fps)
    }

    /** Every row is filed under its own hash. */
    ghost predicate Valid()
      reads this
    {
      forall h | h in fps :: fps[h].hash == h
    }

    /** One transaction starts: it goes through, or the process is left as `stop` says. */
    method Begin() returns (ok: bool)
      requires mode.Running?
      modifies this`mode, this`ops
      ensures ok == (old(ops) > 0)
      ensures if ok then mode.Running? && ops == old(ops) - 1 else mode == stop && ops == old(ops)
    {
      ok := ops > 0;
      if ok { ops := ops - 1; } else { mode := stop; }
    }

    method ClaimEvent(ev: LogEvent) returns (stored: Fingerprint)
      requires mode.Running?
      modifies this`events, this`fps, this`mode, this`ops
      ensures if old(ops) > 0
        then mode.Running? && ops == old(ops) - 1 && Tables() == Claim(old(Tables()), ev)
             && stored == fps[ev.fp].(service := ev.service)
        else mode == stop && ops == old(ops) && Tables() == old(Tables())
    {
      stored := FromEvent(ev);
      var ok := Begin();
      if !ok { return; }
      if ev.id !in events {
        events := events[ev.id := EventRow(false, false, None)];
      }
      if events[ev.id].counted {
        stored := RecordOccurrence(stored, 0);
        assert events == Claim(old(Tables()), ev).events;
      } else {
        stored := RecordOccurrence(stored, 1);
        events := events[ev.id := events[ev.id].(counted := true, fp := Some(ev.fp))];
        assert events == Claim(old(Tables()), ev).events;
      }
    }

    /** The occurrence upsert: counters and content move, lifecycle columns are table truth. */
    method RecordOccurrence(incoming: Fingerprint, delta: nat) returns (merged: Fingerprint)
      modifies this`fps
      ensures fps == Merged(old(fps), incoming, delta)
      ensures merged == fps[incoming.hash].(service := incoming.service)
    {
      if incoming.hash !in fps {
        merged := incoming.(occurrences := incoming.occurrences + delta);
        fps := fps[incoming.hash := merged];
      } else {
        var row := fps[incoming.hash];
        merged := row.(service := incoming.service, severity := incoming.severity,
          occurrences := row.occurrences + delta);
        fps := fps[incoming.hash := row.(severity := merged.severity, occurrences := merged.occurrences)];
      }
    }

    method SaveFingerprint(f: Fingerprint)
      requires mode.Running?
      modifies this`fps, this`mode, this`ops
      ensures if old(ops) > 0 then mode.Running? && ops == old(ops) - 1 && fps == Stored(old(fps), f)
        else mode == stop && ops == old(ops) && fps == old(fps)
    {
      var ok := Begin();
      if ok {
        if f.hash in fps {
          fps := fps[f.hash := f.(service := fps[f.hash].service)];
        } else {
          fps := fps[f.hash := f];
        }
      }
    }

    method MarkEventDispatched(id: EventId)
      requires mode.Running?
      modifies this`events, this`mode, this`ops
      ensures if old(ops) > 0
        then mode.Running? && ops == old(ops) - 1 && Tables() == MarkDispatched(old(Tables()), id)
        else mode == stop && ops == old(ops) && Tables() == old(Tables())
    {
      var ok := Begin();
      if ok && id in events { events := events[id := events[id].(dispatched := true)]; }
    }

    // --- durable deliveries ---

    /** Insert unless the key is known; true when it was seen for the first time. */
    method SaveDelivery(key: string, ids: seq<EventId>) returns (first: bool)
      modifies this`deliveries
      ensures deliveries == Q.Saved(old(deliveries), key, ids)
      ensures first == !Q.Known(old(deliveries), key)
      ensures first <==> forall j :: 0 <= j < |old(deliveries)| ==> old(deliveries)[j].key != key
      ensures deliveries == old(deliveries) + (if first then [Q.DeliveryRow(key, ids, Pending, 0)] else [])
    {
      first := true;
      for i := 0 to |deliveries|
        invariant deliveries == old(deliveries)
        invariant first <==> forall j :: 0 <= j < i ==> deliveries[j].key != key
      {
        if deliveries[i].key == key { first := false; }
      }
      if first { deliveries := deliveries + [Q.DeliveryRow(key, ids, Pending, 0)]; }
    }

    /** The oldest pending row moves to processing; `i` is the row count when there is none. */
    method ClaimNextDelivery() returns (i: nat)
      modifies this`deliveries
      ensures i == Q.OldestPending(old(deliveries))
      ensures deliveries == if i < |old(deliveries)| then Q.Moved(old(deliveries), i, Processing) else old(deliveries)
    {
      i := 0;
      while i < |deliveries| && deliveries[i].state != Pending
        invariant i <= |deliveries| && deliveries == old(deliveries)
        invariant forall j :: 0 <= j < i ==> !deliveries[j].state.Pending?
      {
        i := i + 1;
      }
      if i < |deliveries| { deliveries := deliveries[i := deliveries[i].(state := Processing)]; }
    }

    method CompleteDelivery(i: nat)
      requires i < |deliveries|
      modifies this`deliveries
      ensures deliveries == Q.Moved(old(deliveries), i, Completed)
    {
      deliveries := deliveries[i := deliveries[i].(state := Completed)];
    }

    method FailDelivery(i: nat, maxAttempts: nat) returns (state: DeliveryState)
      requires i < |deliveries|
      modifies this`deliveries
      ensures deliveries == Q.FailedOnce(old(deliveries), i, maxAttempts)
      ensures state == deliveries[i].state
      ensures state == if old(deliveries)[i].attempts + 1 < maxAttempts then Pending else Failed
      ensures deliveries[i].attempts == old(deliveries)[i].attempts + 1
    {
      var attempts := deliveries[i].attempts + 1;
      state := if attempts >= maxAttempts then Failed else Pending;
      deliveries := deliveries[i := deliveries[i].(attempts := attempts, state := state)];
    }

    method RecoverStaleDeliveries()
      modifies this`fps, this`deliveries
      ensures Tables() == Recover(old(Tables()))
      ensures deliveries == Q.ResetAll(old(deliveries))
      ensures forall i :: 0 <= i < |deliveries| ==>
        && deliveries[i].attempts == old(deliveries)[i].attempts
        && deliveries[i].state == if old(deliveries)[i].state == Processing then Pending else old(deliveries)[i].state
    {
      fps := map h | h in fps ::
        if fps[h].ticket.None? && fps[h].reservedAt.Some? then fps[h].(state := New, reservedAt := None) else fps[h];
      var rows := deliveries;
      deliveries := seq(|rows|, i requires 0 <= i < |rows| =>
        if rows[i].state.Processing? then rows[i].(state := Pending) else rows[i]);
    }
  }

  /** The forge: what it answers is decided outside, what it holds is its ledger. */
  class Forge {
    var ledgers: Remote

    constructor (ledgers: Remote)
      ensures this.ledgers == ledgers
    {
      this.ledgers := ledgers;
    }

    method FindTicketByMarker(h: FpHash, reply: LookupReply) returns (found: Option<TicketRef>)
      requires !reply.LookupDied?
      ensures found == if reply.Found? && ledgers[h].landed > 0 then Some(reply.ref) else None
    {
      found := None;
      if reply.Found? && ledgers[h].landed > 0 { found := Some(reply.ref); }
    }

    method CreateTicket(h: FpHash, reply: CreateReply)
      modifies this
      ensures ledgers == if ReplyLanded(reply)
        then old(ledgers)[h := old(ledgers)[h].(landed := old(ledgers)[h].landed + 1)] else old(ledgers)
    {
      if ReplyLanded(reply) { ledgers := ledgers[h := ledgers[h].(landed := ledgers[h].landed + 1)]; }
    }
  }

  lemma PutPut(p: Proc, h: FpHash, c: Cell, d: Cell)
    ensures PutCell(PutCell(p, h, c), h, d) == PutCell(p, h, d)
    ensures CellOf(PutCell(p, h, c), h) == c
  {
    assert p.store.fps[h := c.row][h := d.row] == p.store.fps[h := d.row];
    assert p.forge[h := c.ledger][h := d.ledger] == p.forge[h := d.ledger];
  }

  lemma PutSame(p: Proc, h: FpHash)
    requires h in p.store.fps
    ensures PutCell(p, h, CellOf(p, h)) == p
  {
    assert p.store.fps[h := p.store.fps[h]] == p.store.fps;
    assert p.forge[h := p.forge[h]] == p.forge;
  }

  class IngestPipeline {
    const storage: SQLiteStorage
    const forge: Forge

    constructor (storage: SQLiteStorage, forge: Forge)
      ensures this.storage == storage && this.forge == forge
    {
      this.storage, this.forge := storage, forge;
    }

    ghost function P(): Proc
      reads storage, forge
    {
      Proc(storage.Tables(), forge.ledgers, storage.mode, storage.ops, storage.stop)
    }

    ghost function C(h: FpHash): Cell
      requires h in storage.fps
      reads storage, forge
    {
      CellOf(P(), h)
    }

    method Save(f: Fingerprint)
      requires storage.Valid() && storage.mode.Running? && f.hash in storage.fps
      modifies storage`fps, storage`mode, storage`ops
      ensures P() == PutCell(old(P()), f.hash, PipelineSpec.Save(old(C(f.hash)), f))
      ensures storage.Valid() && f.hash in storage.fps
    {
      PutSame(P(), f.hash);
      storage.SaveFingerprint(f);
      assert forge.ledgers[f.hash := forge.ledgers[f.hash]] == forge.ledgers;
    }

    /** An audit append, seen as one more transaction that can fail. */
    method RecordAudit(ghost h: FpHash)
      requires storage.mode.Running? && h in storage.fps
      modifies storage`mode, storage`ops
      ensures P() == PutCell(old(P()), h, PipelineSpec.Audit(old(C(h))))
    {
      PutSame(P(), h);
      var _ := storage.Begin();
      assert storage.fps[h := storage.fps[h]] == storage.fps;
      assert forge.ledgers[h := forge.ledgers[h]] == forge.ledgers;
    }

    /** The process ends the call raising or dead. */
    method Exit(ghost h: FpHash, mode: Halt)
      requires h in storage.fps
      modifies storage`mode
      ensures P() == PutCell(old(P()), h, old(C(h)).(mode := mode))
    {
      storage.mode := mode;
      PutSame(old(P()), h);
    }

    method Note(h: FpHash, l: Ledger)
      requires h in storage.fps
      modifies forge
      ensures P() == PutCell(old(P()), h, old(C(h)).(ledger := l))
    {
      forge.ledgers := forge.ledgers[h := l];
      assert storage.fps[h := storage.fps[h]] == storage.fps;
    }

    method BindTicket(reserved: Fingerprint, ref: TicketRef) returns (bound: Fingerprint)
      requires storage.Valid() && storage.mode.Running? && reserved.hash in storage.fps
      modifies storage`fps, storage`mode, storage`ops
      ensures P() == PutCell(old(P()), reserved.hash, Bind(old(C(reserved.hash)), reserved, ref))
      ensures bound == reserved.(ticket := Some(ref), reservedAt := None)
      ensures storage.Valid() && reserved.hash in storage.fps
    {
      ghost var p0, h := P(), reserved.hash;
      bound := reserved.(ticket := Some(ref), reservedAt := None);
      Save(bound);
      ghost var c1 := PipelineSpec.Save(CellOf(p0, h), bound);
      PutPut(p0, h, c1, PipelineSpec.Audit(c1));
      if !storage.mode.Running? { return; }
      RecordAudit(h);
    }

    method RecoverInterruptedReservation(stored: Fingerprint, env: Env) returns (now: Fingerprint)
      requires storage.Valid() && storage.mode.Running? && stored.hash in storage.fps
      requires stored == storage.fps[stored.hash].(service := stored.service)
      modifies storage`fps, storage`mode, storage`ops
      ensures storage.Valid() && stored.hash in storage.fps
      ensures P() == PutCell(old(P()), stored.hash, RecoverInterrupted(old(C(stored.hash)), stored, env))
      ensures storage.mode.Running? ==> now == storage.fps[stored.hash].(service := stored.service)
    {
      PutSame(P(), stored.hash);
      if stored.ticket.Some? || stored.reservedAt.None? { return stored; }
      if stored.state != QueuedRca && stored.state != Open { return stored; }
      if env.now - stored.reservedAt.value < STALE_SECONDS { return stored; }
      now := stored;
      if env.staleLookup.LookupDied? { Exit(stored.hash, Crashed); return; }
      var reconciled := forge.FindTicketByMarker(stored.hash, env.staleLookup);
      if reconciled.Some? {
        now := BindTicket(stored, reconciled.value);
      } else {
        now := stored.(state := New, reservedAt := None);
        Save(now);
      }
    }

    /** Bind a ticket that this very call may have created: a failed write loses it. */
    method BindAnswered(reserved: Fingerprint, ref: TicketRef, mayBeNew: bool)
      requires storage.Valid() && storage.mode.Running? && reserved.hash in storage.fps
      modifies storage`fps, storage`mode, storage`ops, forge
      ensures P() == PutCell(old(P()), reserved.hash,
        if mayBeNew then BindFresh(old(C(reserved.hash)), reserved, ref)
        else Bind(old(C(reserved.hash)), reserved, ref))
      ensures storage.Valid() && reserved.hash in storage.fps
    {
      ghost var p0 := P();
      var h := reserved.hash;
      var bound := reserved.(ticket := Some(ref), reservedAt := None);
      Save(bound);
      ghost var c1 := PipelineSpec.Save(CellOf(p0, h), bound);
      PutPut(p0, h, c1, PipelineSpec.Audit(c1));
      PutPut(p0, h, c1, Lose(c1));
      if !storage.mode.Running? {
        if mayBeNew { Note(h, forge.ledgers[h].(lost := forge.ledgers[h].lost + 1)); }
        return;
      }
      RecordAudit(h);
    }

    /** The exception path of ticket creation: reconcile before anything is created again. */
    method HandleCreateFailure(stored: Fingerprint, reserved: Fingerprint, env: Env)
      requires storage.Valid() && storage.mode.Running? && stored.hash == reserved.hash && stored.hash in storage.fps
      requires env.create.CreateFailed?
      modifies storage`fps, storage`mode, storage`ops, forge
      ensures storage.Valid() && stored.hash in storage.fps
      ensures P() == PutCell(old(P()), stored.hash, AfterFailedCreate(old(C(stored.hash)), stored, reserved, env))
    {
      ghost var p0 := P();
      var h := stored.hash;
      var ref: Option<TicketRef> := None;
      var ambiguous := IsAmbiguousWrite(env.create.exc);
      if ambiguous && !env.lookup.LookupDied? {
        ref := forge.FindTicketByMarker(h, env.lookup);
      }
      if ref.Some? {
        BindAnswered(reserved, ref.value, env.create.landed);
      } else if ambiguous {
        PutSame(p0, h);
        if env.create.landed {
          Note(h, forge.ledgers[h].(lost := forge.ledgers[h].lost + 1));
          PutPut(p0, h, Lose(CellOf(p0, h)), Lose(CellOf(p0, h)).(mode := Crashed));
          PutPut(p0, h, Lose(CellOf(p0, h)), Lose(CellOf(p0, h)).(mode := Raised));
        }
        Exit(h, if env.lookup.LookupDied? then Crashed else Raised);
      } else {
        var released := stored.(state := New, reservedAt := None);
        Save(released);
        ghost var c1 := PipelineSpec.Save(CellOf(p0, h), released);
        PutPut(p0, h, c1, c1.(mode := Raised));
        if storage.mode.Running? { Exit(h, Raised); }
      }
    }
  
    method CreateTicket(stored: Fingerprint, env: Env)
      requires storage.Valid() && storage.mode.Running? && stored.hash in storage.fps
      modifies storage`fps, storage`mode, storage`ops, forge
      ensures storage.Valid() && stored.hash in storage.fps
      ensures P() == PutCell(old(P()), stored.hash, PipelineSpec.CreateTicket(old(C(stored.hash)), stored, env))
    {
      ghost var p0 := P();
      var h := stored.hash;
      PutSame(p0, h);
      if env.ticketsThisHour > env.cfg.maxTicketsPerHour { return; }
      var reserved := stored.(
        state := if env.cfg.autonomy != Observe then QueuedRca else Open, reservedAt := Some(env.now));
      Save(reserved);
      if !storage.mode.Running? { return; }
      ghost var c1 := C(h);
      CallCreate(h, env.create);
      ghost var c2 := C(h);
      PutPut(p0, h, c1, c2);
      match env.create {
        case Accepted(ref) =>
          PutPut(p0, h, c2, BindFresh(c2, reserved, ref));
          BindAnswered(reserved, ref, true);
        case CreateFailed(_, _) =>
          PutPut(p0, h, c2, AfterFailedCreate(c2, stored, reserved, env));
          HandleCreateFailure(stored, reserved, env);
        case CreateDied(landed) =>
          if landed { Note(h, forge.ledgers[h].(lost := forge.ledgers[h].lost + 1)); }
          Exit(h, Crashed);
          PutPut(p0, h, c2, Lose(c2));
          PutPut(p0, h, Lose(c2), Lose(c2).(mode := Crashed));
          PutPut(p0, h, c2, c2.(mode := Crashed));
      }
    }

    /** The call itself: the forge takes the ticket or not, whatever the answer. */
    method CallCreate(h: FpHash, reply: CreateReply)
      requires h in storage.fps
      modifies forge
      ensures P() == PutCell(old(P()), h, if ReplyLanded(reply) then Land(old(C(h))) else old(C(h)))
    {
      PutSame(P(), h);
      forge.CreateTicket(h, reply);
      assert storage.fps[h := storage.fps[h]] == storage.fps;
    }

    method UpdateTicket(stored: Fingerprint, env: Env)
      requires storage.Valid() && storage.mode.Running? && stored.hash in storage.fps
      modifies storage`fps, storage`mode, storage`ops, forge
      ensures storage.Valid() && stored.hash in storage.fps
      ensures P() == PutCell(old(P()), stored.hash, PipelineSpec.UpdateTicket(old(C(stored.hash)), stored, env))
    {
      ghost var p0 := P();
      var h := stored.hash;
      PutSame(p0, h);
      if stored.state == ClosedAuto {
        Save(stored.(state := Reopened));
        ghost var c1 := C(h);
        PutPut(p0, h, c1, c1.(mode := Raised));
        PutPut(p0, h, c1, c1.(mode := Crashed));
        if storage.mode.Running? && !env.call.Done? {
          Exit(h, if env.call.CallDied? then Crashed else Raised);
        }
        return;
      }
      var floor := if stored.commentedAt * 2 > 4 then stored.commentedAt * 2 else 4;
      if stored.occurrences < floor { return; }
      PostComment(stored, env.call);
    }

    method PostComment(stored: Fingerprint, reply: CallReply)
      requires storage.Valid() && storage.mode.Running? && stored.hash in storage.fps
      modifies storage`fps, storage`mode, storage`ops, forge
      ensures storage.Valid() && stored.hash in storage.fps
      ensures P() == PutCell(old(P()), stored.hash, Comment(old(C(stored.hash)), stored, reply))
    {
      ghost var p0 := P();
      var h := stored.hash;
      var l := forge.ledgers[h];
      if reply.Done? { RememberComment(stored); return; }
      var landed := if reply.CallFailed? then reply.landed else reply.landed;
      Note(h, if landed then l.(posted := l.posted + 1, unsaved := l.unsaved + 1) else l);
      ghost var c1 := C(h);
      Exit(h, if reply.CallDied? then Crashed else Raised);
      PutPut(p0, h, c1, C(h));
    }

    method EnterComment(h: FpHash)
      requires h in storage.fps
      modifies forge
      ensures P() == PutCell(old(P()), h, Remembered(old(C(h))))
    {
      var l := forge.ledgers[h];
      Note(h, if storage.mode.Running? then l.(persisted := l.persisted + 1) else l.(unsaved := l.unsaved + 1));
    }

    /** The comment is on the ticket; the anchor moves if the row write goes through. */
    method RememberComment(stored: Fingerprint)
      requires storage.Valid() && storage.mode.Running? && stored.hash in storage.fps
      modifies storage`fps, storage`mode, storage`ops, forge
      ensures storage.Valid() && stored.hash in storage.fps
      ensures P() == PutCell(old(P()), stored.hash, Comment(old(C(stored.hash)), stored, Done))
    {
      ghost var p0 := P();
      var h := stored.hash;
      var l := forge.ledgers[h];
      Note(h, l.(posted := l.posted + 1));
      ghost var c1 := CellOf(p0, h).(ledger := l.(posted := l.posted + 1));
      Save(stored.(commentedAt := stored.occurrences));
      ghost var c2 := PipelineSpec.Save(c1, stored.(commentedAt := stored.occurrences));
      PutPut(p0, h, c1, c2);
      EnterComment(h);
      PutPut(p0, h, c2, Remembered(c2));
    }

    method ApplyPolicy(stored: Fingerprint, env: Env)
      requires storage.Valid() && storage.mode.Running? && stored.hash in storage.fps
      modifies storage`fps, storage`mode, storage`ops, forge
      ensures storage.Valid() && stored.hash in storage.fps
      ensures P() == PutCell(old(P()), stored.hash, Policy(old(C(stored.hash)), stored, env))
    {
      PutSame(P(), stored.hash);
      match Decide(stored, env.cfg, env.rateInWindow) {
        case Record =>
        case Absorbed =>
        case Suppressed =>
        case Wake => if stored.ticket.None? { CreateTicket(stored, env); } else { UpdateTicket(stored, env); }
      }
    }

    /** Recover, then decide: everything policy does to the fingerprint of one event. */
    method RunPolicy(claimed: Fingerprint, env: Env)
      requires storage.Valid() && storage.mode.Running? && claimed.hash in storage.fps
      requires claimed == storage.fps[claimed.hash].(service := claimed.service)
      modifies storage`fps, storage`mode, storage`ops, forge
      ensures storage.Valid() && claimed.hash in storage.fps
      ensures P() == PutCell(old(P()), claimed.hash, Dispatch(old(C(claimed.hash)), claimed.service, env))
    {
      ghost var p0, h := P(), claimed.hash;
      var stored := RecoverInterruptedReservation(claimed, env);
      ghost var c1 := C(h);
      if storage.mode.Running? {
        ApplyPolicy(stored, env);
        PutPut(p0, h, c1, C(h));
      }
    }

    /** What follows the claim: nothing for an event whose policy already ran. */
    method ProcessClaimed(ev: LogEvent, stored: Fingerprint, env: Env)
      requires storage.Valid() && storage.mode.Running? && ev.id in storage.events
      requires stored.hash == ev.fp && stored.service == ev.service && ev.fp in storage.fps
      requires stored == storage.fps[ev.fp].(service := ev.service)
      modifies storage`events, storage`fps, storage`mode, storage`ops, forge
      ensures P() == PolicyPass(old(P()), ev, env)
      ensures storage.Valid()
    {
      if storage.events[ev.id].dispatched { return; }
      RunPolicy(stored, env);
      if storage.mode.Running? { storage.MarkEventDispatched(ev.id); }
    }

    /** One event: claim and count, then policy unless it already ran, then journal. */
    method HandleEvent(ev: LogEvent, env: Env)
      requires storage.Valid() && storage.mode.Running?
      modifies storage`events, storage`fps, storage`mode, storage`ops, forge
      ensures P() == PipelineSpec.HandleEvent(old(P()), ev, env)
      ensures storage.Valid()
    {
      var stored := storage.ClaimEvent(ev);
      if storage.mode.Running? { ProcessClaimed(ev, stored, env); }
    }
  }
}
