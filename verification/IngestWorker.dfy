/** The delivery worker: one claimed delivery per call, and draining the table. */
module IngestWorker {
  import opened Models
  import opened PipelineSpec
  import opened IngestService
  import Q = DeliveryQueue
  import Runs = IngestRuns
  import Theorems = IngestTheorems

  /** What one attempt at a delivery meets: the events it parses to now, what each pass
      reads from outside, where the storage fails, and whether the closing write works. */
  datatype Attempt = Attempt(events: seq<LogEvent>, envs: seq<Env>, ops: nat, stop: Halt, endOk: bool)

  /** An attempt of a row parses to the row's event ids, in order. */
  predicate Fits(a: Attempt, row: Q.DeliveryRow) {
    && |a.envs| == |a.events| == |row.ids|
    && (forall k :: 0 <= k < |row.ids| ==> a.events[k].id == row.ids[k])
    && (forall k :: 0 <= k < |a.envs| ==> HonestForge(a.envs[k]))
  }

  function Process(p: Proc, events: seq<LogEvent>, envs: seq<Env>): Proc
    decreases |events|
  {
    if events == [] || envs == [] || !p.mode.Running? then p
    else Process(HandleEvent(p, events[0], envs[0]), events[1..], envs[1..])
  }

  /** The row once the attempt is over. */
  function Closed(rows: seq<Q.DeliveryRow>, i: nat, mode: Mode, endOk: bool, maxAttempts: nat): seq<Q.DeliveryRow>
    requires i < |rows|
  {
    if mode.Crashed? || !endOk then rows
    else if mode.Raised? then Q.FailedOnce(rows, i, maxAttempts)
    else Q.Moved(rows, i, Completed)
  }

  /** What becomes of the claimed row: completed when every event went through; pending again, or
      failed once its attempts are used up, when one raised; still in processing when the
      process died or the closing write did not work. */
  function Ended(row: Q.DeliveryRow, mode: Mode, endOk: bool, maxAttempts: nat): Q.DeliveryRow {
    if mode.Crashed? || !endOk then Q.DeliveryRow(row.key, row.ids, Processing, row.attempts)
    else if mode.Running? then Q.DeliveryRow(row.key, row.ids, Completed, row.attempts)
    else
      Q.DeliveryRow(row.key, row.ids, if row.attempts + 1 < maxAttempts then Pending else Failed, row.attempts + 1)
  }

  class DeliveryWorker {
    const storage: SQLiteStorage
    const pipeline: IngestPipeline
    const maxAttempts: nat

    constructor (pipeline: IngestPipeline, maxAttempts: nat)
      ensures this.pipeline == pipeline && storage == pipeline.storage && this.maxAttempts == maxAttempts
    {
      this.storage, this.pipeline, this.maxAttempts := pipeline.storage, pipeline, maxAttempts;
    }

    ghost predicate Valid()
      reads storage
    {
      storage == pipeline.storage && storage.Valid()
    }

    /** The process as the pipeline sees it when an attempt starts. */
    ghost function Start(a: Attempt): Proc
      reads storage, pipeline.forge
    {
      Proc(storage.Tables(), pipeline.forge.ledgers, Running, a.ops, a.stop)
    }

    method ProcessEvents(a: Attempt)
      requires Valid() && |a.envs| == |a.events|
      modifies storage, pipeline.forge
      ensures Valid() && storage.deliveries == old(storage.deliveries)
      ensures pipeline.P() == Process(old(Start(a)), a.events, a.envs)
    {
      storage.mode, storage.ops, storage.stop := Running, a.ops, a.stop;
      ghost var p0 := pipeline.P();
      var k := 0;
      while k < |a.events| && storage.mode.Running?
        invariant k <= |a.events| && Valid() && storage.deliveries == old(storage.deliveries)
        invariant Process(p0, a.events, a.envs) == Process(pipeline.P(), a.events[k..], a.envs[k..])
      {
        assert a.events[k..][1..] == a.events[k + 1..] && a.envs[k..][1..] == a.envs[k + 1..];
        pipeline.HandleEvent(a.events[k], a.envs[k]);
        k := k + 1;
      }
    }

    /** Claim, process, then complete or fail.  False when nothing was pending. */
    method ProcessNext(attempt: Q.DeliveryRow -> Attempt) returns (handled: bool)
      requires Valid() && forall row :: Fits(attempt(row), row)
      modifies storage, pipeline.forge
      ensures Valid()
      ensures var i := Q.OldestPending(old(storage.deliveries));
        && handled == (i < |old(storage.deliveries)|)
        && (!handled ==> storage.deliveries == old(storage.deliveries) && pipeline.P() == old(pipeline.P()))
        && (handled ==>
              var a := attempt(old(storage.deliveries)[i]);
              && pipeline.P() == Process(old(Start(a)), a.events, a.envs)
              && storage.deliveries ==
                   Closed(Q.Moved(old(storage.deliveries), i, Processing), i, storage.mode, a.endOk, maxAttempts))
      ensures var i := Q.OldestPending(old(storage.deliveries));
        handled ==>
          var row := old(storage.deliveries)[i];
          && i < |storage.deliveries|
          && storage.deliveries[i] == Ended(row, storage.mode, attempt(row).endOk, maxAttempts)
          && forall j :: 0 <= j < |storage.deliveries| && j != i ==> storage.deliveries[j] == old(storage.deliveries)[j]
    {
      var i := storage.ClaimNextDelivery();
      if i == |storage.deliveries| { return false; }
      handled := true;
      ghost var row := old(storage.deliveries)[i];
      var a := attempt(storage.deliveries[i].(state := Pending));
      assert row == storage.deliveries[i].(state := Pending);
      ProcessEvents(a);
      if storage.mode.Crashed? || !a.endOk { return; }
      if storage.mode.Raised? {
        var _ := storage.FailDelivery(i, maxAttempts);
      } else {
        storage.CompleteDelivery(i);
      }
    }

    /** Draining with no new arrivals: it ends after at most the attempts left of the pending
        rows. */
    method Drain(attempt: Q.DeliveryRow -> Attempt) returns (calls: nat)
      requires Valid() && forall row :: Fits(attempt(row), row)
      requires forall i :: 0 <= i < |storage.deliveries| && storage.deliveries[i].state.Pending? ==>
        storage.deliveries[i].attempts < maxAttempts
      modifies storage, pipeline.forge
      ensures Valid() && calls <= Q.PendingFuel(old(storage.deliveries), maxAttempts)
      ensures storage.mode.Crashed? ||
        forall i :: 0 <= i < |storage.deliveries| ==> !storage.deliveries[i].state.Pending?
    {
      calls := 0;
      var more := true;
      storage.mode := Running;
      while more && !storage.mode.Crashed?
        invariant Valid()
        invariant forall i :: 0 <= i < |storage.deliveries| && storage.deliveries[i].state.Pending? ==>
          storage.deliveries[i].attempts < maxAttempts
        invariant calls + Q.PendingFuel(storage.deliveries, maxAttempts)
               <= Q.PendingFuel(old(storage.deliveries), maxAttempts)
        invariant more || forall i :: 0 <= i < |storage.deliveries| ==> !storage.deliveries[i].state.Pending?
        decreases Q.PendingFuel(storage.deliveries, maxAttempts), more
      {
        ghost var rows := storage.deliveries;
        ghost var i := Q.OldestPending(rows);
        more := ProcessNext(attempt);
        if more {
          CloseBurns(rows, i, storage.mode, attempt(rows[i]).endOk, maxAttempts);
          calls := calls + 1;
        }
      }
    }
  }

  /** Claiming a row and closing it burns at least one unit of fuel. */
  lemma CloseBurns(rows: seq<Q.DeliveryRow>, i: nat, mode: Mode, endOk: bool, m: nat)
    requires i < |rows| && rows[i].state.Pending? && rows[i].attempts < m
    ensures Q.PendingFuel(Closed(Q.Moved(rows, i, Processing), i, mode, endOk, m), m) < Q.PendingFuel(rows, m)
    ensures var r := Closed(Q.Moved(rows, i, Processing), i, mode, endOk, m)[i]; r.state.Pending? ==> r.attempts < m
  {
    var closed := Closed(Q.Moved(rows, i, Processing), i, mode, endOk, m);
    assert closed == rows[i := closed[i]];
    Q.PendingFuelUpdate(rows, i, closed[i], m);
  }

  // --- an attempt is a run of the state machine ------------------------------------------

  lemma {:induction false} RunCons(s: Runs.Sys, a: Runs.Step, steps: seq<Runs.Step>)
    ensures Runs.Run(s, [a] + steps) == Runs.Run(Runs.Next(s, a), steps)
    decreases |steps|
  {
    if steps == [] {
      assert [a] + steps == [] + [a];
      Theorems.RunAppend(s, [], a);
    } else {
      var front := steps[..|steps| - 1];
      RunCons(s, a, front);
      assert ([a] + steps)[..|[a] + steps| - 1] == [a] + front;
    }
  }

  /** The worker after some events, as the machine records it. */
  function After(p: Proc, i: nat, next: nat): map<nat, Q.Worker> {
    match p.mode
    case Running => map[0 := Q.Working(i, next)]
    case Raised => map[0 := Q.Failing(i)]
    case Crashed => map[]
  }

  function View(p: Proc, rows: seq<Q.DeliveryRow>, workers: map<nat, Q.Worker>, maxAttempts: nat): Runs.Sys {
    Runs.Sys(p.store, p.forge, Q.Queue(rows, workers, !p.mode.Crashed?, maxAttempts))
  }

  predicate FitsFrom(events: seq<LogEvent>, envs: seq<Env>, row: Q.DeliveryRow, k: nat) {
    && |envs| == |events| && k + |events| == |row.ids|
    && (forall j :: 0 <= j < |events| ==> events[j].id == row.ids[k + j])
    && (forall j :: 0 <= j < |envs| ==> HonestForge(envs[j]))
  }

  /** How the worker's place in the queue moves with the fate of one event. */
  lemma WorkerMoves(rows: seq<Q.DeliveryRow>, i: nat, k: nat, mode: Mode, m: nat)
    requires i < |rows| && k < |rows[i].ids|
    ensures var step := match mode case Running => Q.Advance(0) case Raised => Q.Stumble(0) case Crashed => Q.Die;
      Q.Next(Q.Queue(rows, map[0 := Q.Working(i, k)], true, m), step)
      == Q.Queue(rows,
                 (match mode
                  case Running => map[0 := Q.Working(i, k + 1)]
                  case Raised => map[0 := Q.Failing(i)]
                  case Crashed => map[]),
                 !mode.Crashed?, m)
  {
    var workers := map[0 := Q.Working(i, k)];
    assert workers[0 := Q.Working(i, k + 1)] == map[0 := Q.Working(i, k + 1)];
    assert workers[0 := Q.Failing(i)] == map[0 := Q.Failing(i)];
  }

  lemma OneEvent(p: Proc, rows: seq<Q.DeliveryRow>, i: nat, k: nat, ev: LogEvent, env: Env, m: nat)
    requires p.mode.Running? && i < |rows| && k < |rows[i].ids| && ev.id == rows[i].ids[k] && HonestForge(env)
    ensures var q := HandleEvent(p, ev, env);
      Runs.Next(View(p, rows, map[0 := Q.Working(i, k)], m), Runs.Handle(0, ev, env, p.ops, p.stop))
      == View(q, rows, After(q, i, k + 1), m)
  {
    assert Proc(p.store, p.forge, Running, p.ops, p.stop) == p;
    WorkerMoves(rows, i, k, HandleEvent(p, ev, env).mode, m);
  }

  lemma {:induction false} ProcessIsRun(
      p: Proc, rows: seq<Q.DeliveryRow>, i: nat, k: nat, events: seq<LogEvent>, envs: seq<Env>, m: nat)
    returns (steps: seq<Runs.Step>)
    requires p.mode.Running? && i < |rows| && FitsFrom(events, envs, rows[i], k)
    ensures var q := Process(p, events, envs);
      Runs.Run(View(p, rows, map[0 := Q.Working(i, k)], m), steps) == View(q, rows, After(q, i, |rows[i].ids|), m)
    decreases |events|
  {
    if events == [] {
      steps := [];
    } else {
      var a := Runs.Handle(0, events[0], envs[0], p.ops, p.stop);
      OneEvent(p, rows, i, k, events[0], envs[0], m);
      var q := HandleEvent(p, events[0], envs[0]);
      if q.mode.Running? {
        var rest := ProcessIsRun(q, rows, i, k + 1, events[1..], envs[1..], m);
        RunCons(View(p, rows, map[0 := Q.Working(i, k)], m), a, rest);
        steps := [a] + rest;
      } else {
        RunCons(View(p, rows, map[0 := Q.Working(i, k)], m), a, []);
        steps := [a];
        assert [a] + [] == [a];
      }
    }
  }

  /** Claiming and processing the oldest pending delivery, as the worker does it, is a run of
      the state machine: every theorem about runs is one about the worker. */
  lemma WorkerPassIsRun(p: Proc, rows: seq<Q.DeliveryRow>, a: Attempt, m: nat) returns (steps: seq<Runs.Step>)
    requires p.mode.Running? && a.ops == p.ops && a.stop == p.stop
    requires var i := Q.OldestPending(rows); i < |rows| && Fits(a, rows[i])
    ensures var i := Q.OldestPending(rows);
      var q := Process(p, a.events, a.envs);
      Runs.Run(View(p, rows, map[], m), steps)
      == View(q, Closed(Q.Moved(rows, i, Processing), i, q.mode, a.endOk, m), map[], m)
  {
    var i := Q.OldestPending(rows);
    var moved := Q.Moved(rows, i, Processing);
    var s0 := View(p, rows, map[], m);
    var claim := Runs.Deliver(Q.ClaimNext(0));
    var s1 := View(p, moved, map[0 := Q.Working(i, 0)], m);
    ClaimStep(p, rows, m);
    var middle := ProcessIsRun(p, moved, i, 0, a.events, a.envs, m);
    var q := Process(p, a.events, a.envs);
    RunCons(s0, claim, middle);
    var last := Runs.Deliver(if !a.endOk then Q.Vanish(0) else if q.mode.Raised? then Q.GiveUp(0) else Q.Finish(0));
    if q.mode.Crashed? {
      steps := [claim] + middle;
    } else {
      steps := [claim] + middle + [last];
      Theorems.RunAppend(s0, [claim] + middle, last);
      CloseStep(q, moved, i, a.endOk, m);
    }
  }

  lemma ClaimStep(p: Proc, rows: seq<Q.DeliveryRow>, m: nat)
    requires p.mode.Running? && Q.OldestPending(rows) < |rows|
    ensures var i := Q.OldestPending(rows);
      Runs.Next(View(p, rows, map[], m), Runs.Deliver(Q.ClaimNext(0)))
      == View(p, Q.Moved(rows, i, Processing), map[0 := Q.Working(i, 0)], m)
  {
    var i := Q.OldestPending(rows);
    var none: map<nat, Q.Worker> := map[];
    assert none[0 := Q.Working(i, 0)] == map[0 := Q.Working(i, 0)];
  }

  lemma CloseStep(q: Proc, rows: seq<Q.DeliveryRow>, i: nat, endOk: bool, m: nat)
    requires !q.mode.Crashed? && i < |rows|
    ensures var last := if !endOk then Q.Vanish(0) else if q.mode.Raised? then Q.GiveUp(0) else Q.Finish(0);
      Runs.Next(View(q, rows, After(q, i, |rows[i].ids|), m), Runs.Deliver(last))
      == View(q, Closed(rows, i, q.mode, endOk, m), map[], m)
  {
    assert After(q, i, |rows[i].ids|) - {0} == map[];
  }
}
