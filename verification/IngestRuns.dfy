/** The ingest subsystem as a state machine: concurrent workers over the delivery table,
    one pipeline pass at a time (the dispatch lock), failures and restarts anywhere. */
module IngestRuns {
  import opened Models
  import opened IngestStore
  import opened PipelineSpec
  import opened PipelineProofs
  import Q = DeliveryQueue

  datatype Sys = Sys(store: Store, forge: Remote, queue: Q.Queue)

  datatype Step =
    | Deliver(step: Q.Step)                       // any delivery-table step but Advance
    | Handle(w: nat, ev: LogEvent, env: Env, ops: nat, stop: Halt)
    | OtherPass(h: FpHash, state: WorkState)      // any other pass that moves only the work state

  ghost function Init(maxAttempts: nat): Sys {
    Sys(EMPTY_STORE, Untouched(), Q.Empty(maxAttempts))
  }

  predicate CanHandle(s: Sys, w: nat, ev: LogEvent, env: Env) {
    Q.HasEvent(s.queue, w) && ev.id == Q.EventOf(s.queue, w) && HonestForge(env)
  }

  function Pass(s: Sys, ev: LogEvent, env: Env, ops: nat, stop: Halt): Proc {
    HandleEvent(Proc(s.store, s.forge, Running, ops, stop), ev, env)
  }

  /** What a step of the system is to the delivery table. */
  function TableStep(s: Sys, a: Step): Q.Step {
    match a
    case Deliver(step) => if step.Advance? then Q.Wait else step
    case Handle(w, ev, env, ops, stop) =>
      if !CanHandle(s, w, ev, env) then Q.Wait
      else (match Pass(s, ev, env, ops, stop).mode
            case Running => Q.Advance(w)
            case Raised => Q.Stumble(w)
            case Crashed => Q.Die)
    case OtherPass(_, _) => Q.Wait
  }

  function Next(s: Sys, a: Step): Sys {
    var queue := Q.Next(s.queue, TableStep(s, a));
    match a
    case Deliver(step) =>
      Sys(if step.Restart? && !s.queue.up then Recover(s.store) else s.store, s.forge, queue)
    case Handle(w, ev, env, ops, stop) =>
      if !CanHandle(s, w, ev, env) then s
      else Sys(Pass(s, ev, env, ops, stop).store, Pass(s, ev, env, ops, stop).forge, queue)
    case OtherPass(h, state) =>
      if h in s.store.fps then s.(store := s.store.(fps := s.store.fps[h := s.store.fps[h].(state := state)])) else s
  }

  function Run(s: Sys, steps: seq<Step>): Sys
    decreases |steps|
  {
    if steps == [] then s else Next(Run(s, steps[..|steps| - 1]), steps[|steps| - 1])
  }

  // --- the invariant ---------------------------------------------------------------------

  predicate FpOk(st: Store, forge: Remote, h: FpHash) {
    if h in st.fps then
      st.fps[h].hash == h && TicketOk(st.fps[h], forge[h]) && CommentOk(st.fps[h], forge[h])
    else forge[h] == NO_TRAFFIC
  }

  function Dispatched(st: Store): set<EventId> {
    set id | id in st.events && st.events[id].dispatched
  }

  ghost predicate DataOk(st: Store, forge: Remote) {
    CountOk(st) && forall h :: FpOk(st, forge, h)
  }

  ghost predicate Inv(s: Sys) {
    && DataOk(s.store, s.forge)
    && Q.QueueOk(s.queue, Dispatched(s.store))
    && Q.KeysUnique(s.queue.rows)
  }

  // --- one event keeps it -----------------------------------------------------------------

  lemma ClaimData(st: Store, forge: Remote, ev: LogEvent)
    requires DataOk(st, forge)
    ensures DataOk(Claim(st, ev), forge)
  {
    ClaimCounts(st, ev);
    forall h ensures FpOk(Claim(st, ev), forge, h) {
      assert FpOk(st, forge, h);
    }
  }

  lemma DispatchData(p: Proc, h: FpHash, service: string, env: Env)
    requires HonestForge(env) && DataOk(p.store, p.forge) && h in p.store.fps
    ensures var q := PutCell(p, h, Dispatch(CellOf(p, h), service, env));
      DataOk(q.store, q.forge) && q.store.events == p.store.events
  {
    var d := Dispatch(CellOf(p, h), service, env);
    var q := PutCell(p, h, d);
    assert FpOk(p.store, p.forge, h);
    DispatchKeeps(CellOf(p, h), service, env);
    forall k ensures FpOk(q.store, q.forge, k) {
      assert FpOk(p.store, p.forge, k);
    }
  }

  lemma MarkData(st: Store, forge: Remote, id: EventId)
    requires DataOk(st, forge) && id in st.events && st.events[id].counted
    ensures DataOk(MarkDispatched(st, id), forge)
    ensures Dispatched(MarkDispatched(st, id)) == Dispatched(st) + {id}
  {
    MarkCounts(st, id);
    forall h ensures FpOk(MarkDispatched(st, id), forge, h) {
      assert FpOk(st, forge, h);
    }
  }

  lemma PassKeeps(p: Proc, ev: LogEvent, env: Env)
    requires p.mode.Running? && HonestForge(env) && DataOk(p.store, p.forge)
    requires ev.fp in p.store.fps && ev.id in p.store.events && p.store.events[ev.id].counted
    ensures var q := PolicyPass(p, ev, env);
      && DataOk(q.store, q.forge)
      && Dispatched(p.store) <= Dispatched(q.store)
      && (q.mode.Running? ==> ev.id in Dispatched(q.store))
  {
    if !EventRowOf(p.store, ev.id).dispatched {
      DispatchData(p, ev.fp, ev.service, env);
      var q := PutCell(p, ev.fp, Dispatch(CellOf(p, ev.fp), ev.service, env));
      assert Dispatched(q.store) == Dispatched(p.store);
      if q.mode.Running? { MarkData(q.store, q.forge, ev.id); }
    }
  }

  /** What one event does to the tables, however it ends. */
  lemma HandleKeeps(p: Proc, ev: LogEvent, env: Env)
    requires p.mode.Running? && HonestForge(env) && DataOk(p.store, p.forge)
    ensures var q := HandleEvent(p, ev, env);
      && DataOk(q.store, q.forge)
      && Dispatched(p.store) <= Dispatched(q.store)
      && (q.mode.Running? ==> ev.id in Dispatched(q.store))
  {
    var p1 := Write(p, Claim(p.store, ev));
    ClaimData(p.store, p.forge, ev);
    assert Dispatched(p.store) <= Dispatched(p1.store);
    if p1.mode.Running? { PassKeeps(p1, ev, env); }
  }

  // --- every step keeps it -------------------------------------------------------------------

  lemma RecoverData(st: Store, forge: Remote)
    requires DataOk(st, forge)
    ensures DataOk(Recover(st), forge)
  {
    forall h ensures FpOk(Recover(st), forge, h) {
      assert FpOk(st, forge, h);
    }
  }

  lemma StateOnlyData(st: Store, forge: Remote, h: FpHash, state: WorkState)
    requires DataOk(st, forge) && h in st.fps
    ensures DataOk(st.(fps := st.fps[h := st.fps[h].(state := state)]), forge)
  {
    var st' := st.(fps := st.fps[h := st.fps[h].(state := state)]);
    forall k ensures FpOk(st', forge, k) {
      assert FpOk(st, forge, k);
    }
  }

  lemma StepKeeps(s: Sys, a: Step)
    requires Inv(s)
    ensures Inv(Next(s, a))
  {
    var done := Dispatched(s.store);
    var step := TableStep(s, a);
    Q.StepKeepsKeys(s.queue, step);
    match a
    case Deliver(_) =>
      Q.StepKeeps(s.queue, step, done);
      RecoverData(s.store, s.forge);
    case Handle(w, ev, env, ops, stop) =>
      if CanHandle(s, w, ev, env) {
        HandleKeeps(Proc(s.store, s.forge, Running, ops, stop), ev, env);
        var done' := Dispatched(Pass(s, ev, env, ops, stop).store);
        Q.MoreDone(s.queue, done, done');
        Q.StepKeeps(s.queue, step, done');
      }
    case OtherPass(h, state) =>
      if h in s.store.fps { StateOnlyData(s.store, s.forge, h, state); }
  }

  lemma {:induction false} Reachable(maxAttempts: nat, steps: seq<Step>)
    requires maxAttempts > 0
    ensures Inv(Run(Init(maxAttempts), steps))
    decreases |steps|
  {
    if steps == [] {
      forall h ensures FpOk(EMPTY_STORE, Untouched(), h) { }
    } else {
      Reachable(maxAttempts, steps[..|steps| - 1]);
      StepKeeps(Run(Init(maxAttempts), steps[..|steps| - 1]), steps[|steps| - 1]);
    }
  }
}
