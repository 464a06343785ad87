/** What holds over every run of the ingest subsystem. */
module IngestTheorems {
  import opened Basics
  import opened Models
  import opened IngestStore
  import opened PipelineSpec
  import opened PipelineProofs
  import opened IngestRuns
  import Q = DeliveryQueue

  function Last(steps: seq<Step>): Step requires steps != [] { steps[|steps| - 1] }
  function Front(steps: seq<Step>): seq<Step> requires steps != [] { steps[..|steps| - 1] }

  // --- tickets -----------------------------------------------------------------------

  /** A pass in which the forge took one more ticket for `h`, and then a fault kept it from
      being bound: a write that did not happen, a death, or a failed call whose lookup did not
      report the ticket. */
  predicate HitByFault(s: Sys, a: Step, h: FpHash) {
    && a.Handle? && CanHandle(s, a.w, a.ev, a.env) && a.ev.fp == h
    && var p := Pass(s, a.ev, a.env, a.ops, a.stop);
    && p.forge[h].landed == s.forge[h].landed + 1
    && !p.mode.Running? && !(h in p.store.fps && p.store.fps[h].ticket.Some?)
    && TicketFault(a.env, a.stop, p.mode, p.ops)
  }

  function Faults(s: Sys, steps: seq<Step>, h: FpHash): nat
    decreases |steps|
  {
    if steps == [] then 0
    else Faults(s, Front(steps), h) + if HitByFault(Run(s, Front(steps)), Last(steps), h) then 1 else 0
  }

  lemma StepLoses(s: Sys, a: Step, h: FpHash)
    ensures Next(s, a).forge[h].lost <= s.forge[h].lost + if HitByFault(s, a, h) then 1 else 0
  {
    if a.Handle? && CanHandle(s, a.w, a.ev, a.env) {
      var p1 := Write(Proc(s.store, s.forge, Running, a.ops, a.stop), Claim(s.store, a.ev));
      if p1.mode.Running? && h == a.ev.fp {
        LostOnlyByFault(CellOf(p1, h), a.ev.service, a.env);
      }
    }
  }

  lemma {:induction false} LostAreFaults(s: Sys, steps: seq<Step>, h: FpHash)
    ensures Run(s, steps).forge[h].lost <= s.forge[h].lost + Faults(s, steps, h)
    decreases |steps|
  {
    if steps != [] {
      LostAreFaults(s, Front(steps), h);
      StepLoses(Run(s, Front(steps)), Last(steps), h);
    }
  }

  /** Over every run, with crashes anywhere, one fingerprint has at most one ticket more
      than the faults that hit it; without faults it has at most one. */
  lemma TicketsBounded(maxAttempts: nat, steps: seq<Step>, h: FpHash)
    requires maxAttempts > 0
    ensures var s0 := Init(maxAttempts);
      Run(s0, steps).forge[h].landed <= 1 + Faults(s0, steps, h)
  {
    Reachable(maxAttempts, steps);
    LostAreFaults(Init(maxAttempts), steps, h);
    var s := Run(Init(maxAttempts), steps);
    assert FpOk(s.store, s.forge, h);
  }

  lemma PassLands(p: Proc, ev: LogEvent, env: Env, h: FpHash)
    requires HonestForge(env) && DataOk(p.store, p.forge) && ev.fp in p.store.fps
    ensures PolicyPass(p, ev, env).forge[h].landed >= p.forge[h].landed
  {
    assert FpOk(p.store, p.forge, ev.fp);
    DispatchKeeps(CellOf(p, ev.fp), ev.service, env);
  }

  lemma HandleLands(p: Proc, ev: LogEvent, env: Env, h: FpHash)
    requires p.mode.Running? && HonestForge(env) && DataOk(p.store, p.forge)
    ensures HandleEvent(p, ev, env).forge[h].landed >= p.forge[h].landed
  {
    ClaimData(p.store, p.forge, ev);
    var p1 := Write(p, Claim(p.store, ev));
    if p1.mode.Running? { PassLands(p1, ev, env, h); }
  }

  lemma LandedGrows(s: Sys, a: Step, h: FpHash)
    requires Inv(s)
    ensures Next(s, a).forge[h].landed >= s.forge[h].landed
  {
    if a.Handle? && CanHandle(s, a.w, a.ev, a.env) {
      HandleLands(Proc(s.store, s.forge, Running, a.ops, a.stop), a.ev, a.env, h);
    }
  }

  /** Every counted fault did land a ticket, so the bound leaves no room for phantom faults:
      the tickets are the faults, or the faults and one more. */
  lemma {:induction false} FaultsAreTickets(maxAttempts: nat, steps: seq<Step>, h: FpHash)
    requires maxAttempts > 0
    ensures var s0 := Init(maxAttempts);
      Faults(s0, steps, h) <= Run(s0, steps).forge[h].landed <= 1 + Faults(s0, steps, h)
    decreases |steps|
  {
    TicketsBounded(maxAttempts, steps, h);
    if steps != [] {
      FaultsAreTickets(maxAttempts, Front(steps), h);
      Reachable(maxAttempts, Front(steps));
      LandedGrows(Run(Init(maxAttempts), Front(steps)), Last(steps), h);
    }
  }

  lemma PassBound(p: Proc, ev: LogEvent, env: Env, h: FpHash)
    requires HonestForge(env) && DataOk(p.store, p.forge)
    requires ev.fp in p.store.fps && h in p.store.fps && p.store.fps[h].ticket.Some?
    ensures var q := PolicyPass(p, ev, env);
      h in q.store.fps && q.store.fps[h].ticket == p.store.fps[h].ticket && q.forge[h].landed == p.forge[h].landed
  {
    assert FpOk(p.store, p.forge, ev.fp);
    DispatchKeeps(CellOf(p, ev.fp), ev.service, env);
  }

  lemma HandleBound(p: Proc, ev: LogEvent, env: Env, h: FpHash)
    requires HonestForge(env) && DataOk(p.store, p.forge) && h in p.store.fps && p.store.fps[h].ticket.Some?
    ensures var q := HandleEvent(p, ev, env);
      h in q.store.fps && q.store.fps[h].ticket == p.store.fps[h].ticket && q.forge[h].landed == p.forge[h].landed
  {
    ClaimData(p.store, p.forge, ev);
    var p1 := Write(p, Claim(p.store, ev));
    if p1.mode.Running? { PassBound(p1, ev, env, h); }
  }

  /** A bound fingerprint keeps its ticket and never gets another, whatever happens. */
  lemma BoundStays(s: Sys, a: Step, h: FpHash)
    requires Inv(s) && h in s.store.fps && s.store.fps[h].ticket.Some?
    ensures var s' := Next(s, a);
      h in s'.store.fps && s'.store.fps[h].ticket == s.store.fps[h].ticket && s'.forge[h].landed == s.forge[h].landed
  {
    if a.Handle? && CanHandle(s, a.w, a.ev, a.env) {
      HandleBound(Proc(s.store, s.forge, Running, a.ops, a.stop), a.ev, a.env, h);
    }
  }

  // The bound is met: a crash after the forge accepted and before the row was written,
  // then a restart that re-arms the reservation without asking the forge, again and again.

  const FLAKY := LogEvent("evt-flaky", "fp-flaky", "api", Critical)
  const CONFIG := ServiceConfig(Triage, 5, 3, 10)
  const ACCEPTING := Env(0, CONFIG, 1, 1, Absent, Accepted("issue"), Absent, Done)

  /** Claim the delivery, die between the remote accept and the bind, restart. */
  const CRASH_ROUND: seq<Step> :=
    [Deliver(Q.ClaimNext(0)), Handle(0, FLAKY, ACCEPTING, 2, Crashed), Deliver(Q.Restart)]

  /** The state after `n` crash rounds: nothing bound, `n` tickets at the forge. */
  ghost function AfterCrashes(n: nat): Sys {
    Sys(
      Store(if n == 0 then map[] else map[FLAKY.id := EventRow(true, false, Some(FLAKY.fp))],
            if n == 0 then map[] else map[FLAKY.fp := Fingerprint(FLAKY.fp, "api", Critical, 1, New, None, 0, None)]),
      Untouched()[FLAKY.fp := Ledger(n, n, 0, 0, 0)],
      Q.Queue([Q.DeliveryRow("d", [FLAKY.id], Pending, 0)], map[], true, 5))
  }

  lemma RunAppend(s: Sys, steps: seq<Step>, a: Step)
    ensures Run(s, steps + [a]) == Next(Run(s, steps), a)
    ensures forall h ::
      Faults(s, steps + [a], h) == Faults(s, steps, h) + if HitByFault(Run(s, steps), a, h) then 1 else 0
  {
    assert Front(steps + [a]) == steps;
  }

  const WOKEN := Fingerprint(FLAKY.fp, "api", Critical, 1, New, None, 0, None)
  const RESERVED := WOKEN.(state := QueuedRca, reservedAt := Some(0))

  lemma CrashedCell(n: nat)
    ensures Dispatch(Cell(WOKEN, Ledger(n, n, 0, 0, 0), Running, 1, Crashed), "api", ACCEPTING)
         == Cell(RESERVED, Ledger(n + 1, n + 1, 0, 0, 0), Crashed, 0, Crashed)
  {
  }

  lemma CrashedPass(n: nat)
    ensures Pass(AfterCrashes(n), FLAKY, ACCEPTING, 2, Crashed)
         == Proc(AfterCrashes(n + 1).store.(fps := map[FLAKY.fp := RESERVED]), AfterCrashes(n + 1).forge,
                 Crashed, 0, Crashed)
  {
    var s := AfterCrashes(n);
    assert Claim(s.store, FLAKY) == AfterCrashes(n + 1).store;
    var p1 := Proc(AfterCrashes(n + 1).store, s.forge, Running, 1, Crashed);
    assert CellOf(p1, FLAKY.fp) == Cell(WOKEN, Ledger(n, n, 0, 0, 0), Running, 1, Crashed);
    CrashedCell(n);
    assert s.forge[FLAKY.fp := Ledger(n + 1, n + 1, 0, 0, 0)] == AfterCrashes(n + 1).forge;
  }

  /** The state after the claim of a crash round. */
  ghost function Claimed(n: nat): Sys {
    var row := Q.DeliveryRow("d", [FLAKY.id], Processing, 0);
    AfterCrashes(n).(queue := Q.Queue([row], map[0 := Q.Working(0, 0)], true, 5))
  }

  lemma CrashClaims(n: nat)
    ensures Next(AfterCrashes(n), CRASH_ROUND[0]) == Claimed(n)
  {
    var s1 := Next(AfterCrashes(n), CRASH_ROUND[0]);
    assert s1.queue.rows == Claimed(n).queue.rows;
    assert s1.queue.workers == map[0 := Q.Working(0, 0)];
  }

  /** The state after the death: the ticket is at the forge, the reservation unbound. */
  ghost function Dead(n: nat): Sys {
    var row := Q.DeliveryRow("d", [FLAKY.id], Processing, 0);
    Sys(AfterCrashes(n + 1).store.(fps := map[FLAKY.fp := RESERVED]), AfterCrashes(n + 1).forge,
        Q.Queue([row], map[], false, 5))
  }

  lemma CrashKills(n: nat)
    ensures Next(Claimed(n), CRASH_ROUND[1]) == Dead(n)
  {
    CrashedPass(n);
    assert CanHandle(Claimed(n), 0, FLAKY, ACCEPTING);
    assert TableStep(Claimed(n), CRASH_ROUND[1]) == Q.Die;
  }

  lemma CrashHits(n: nat)
    ensures HitByFault(Claimed(n), CRASH_ROUND[1], FLAKY.fp)
  {
    CrashedPass(n);
  }

  lemma CrashRestarts(n: nat)
    ensures Next(Dead(n), CRASH_ROUND[2]) == AfterCrashes(n + 1)
  {
    var s := Next(Dead(n), CRASH_ROUND[2]);
    assert s.store.fps == map[FLAKY.fp := WOKEN];
    assert s.queue.rows == AfterCrashes(n + 1).queue.rows;
  }

  lemma CrashRound(n: nat)
    ensures var s1 := Next(AfterCrashes(n), CRASH_ROUND[0]);
      var s2 := Next(s1, CRASH_ROUND[1]);
      HitByFault(s1, CRASH_ROUND[1], FLAKY.fp) && Next(s2, CRASH_ROUND[2]) == AfterCrashes(n + 1)
  {
    CrashClaims(n);
    CrashHits(n);
    CrashKills(n);
    CrashRestarts(n);
  }

  const FIRST: Step := Deliver(Q.Accept("d", [FLAKY.id]))

  lemma FirstDelivery()
    ensures Run(Init(5), [FIRST]) == AfterCrashes(0) && Faults(Init(5), [FIRST], FLAKY.fp) == 0
  {
    assert Untouched()[FLAKY.fp := NO_TRAFFIC] == Untouched();
    assert Front([FIRST]) == [];
  }

  lemma RoundAppends(steps: seq<Step>, n: nat)
    requires Run(Init(5), steps) == AfterCrashes(n)
    ensures var s1 := Next(AfterCrashes(n), CRASH_ROUND[0]);
      var s2 := Next(s1, CRASH_ROUND[1]);
      var all := steps + [CRASH_ROUND[0]] + [CRASH_ROUND[1]] + [CRASH_ROUND[2]];
      && Run(Init(5), all) == Next(s2, CRASH_ROUND[2])
      && Faults(Init(5), all, FLAKY.fp) ==
           Faults(Init(5), steps, FLAKY.fp) + if HitByFault(s1, CRASH_ROUND[1], FLAKY.fp) then 1 else 0
  {
    RunAppend(Init(5), steps, CRASH_ROUND[0]);
    RunAppend(Init(5), steps + [CRASH_ROUND[0]], CRASH_ROUND[1]);
    RunAppend(Init(5), steps + [CRASH_ROUND[0]] + [CRASH_ROUND[1]], CRASH_ROUND[2]);
  }

  lemma OneMoreCrash(before: seq<Step>, n: nat) returns (after: seq<Step>)
    requires Run(Init(5), before) == AfterCrashes(n)
    ensures Run(Init(5), after) == AfterCrashes(n + 1)
    ensures Faults(Init(5), after, FLAKY.fp) == Faults(Init(5), before, FLAKY.fp) + 1
  {
    CrashRound(n);
    RoundAppends(before, n);
    after := before + [CRASH_ROUND[0]] + [CRASH_ROUND[1]] + [CRASH_ROUND[2]];
  }

  /** The steps reach `n` crash rounds, each of them a fault. */
  ghost predicate CrashedTimes(steps: seq<Step>, n: nat) {
    Run(Init(5), steps) == AfterCrashes(n) && Faults(Init(5), steps, FLAKY.fp) == n
  }

  lemma NoCrashYet(n: nat) returns (steps: seq<Step>)
    requires n == 0
    ensures CrashedTimes(steps, n)
  {
    FirstDelivery();
    steps := [FIRST];
  }

  lemma CrashedAgain(before: seq<Step>, m: nat, n: nat) returns (after: seq<Step>)
    requires CrashedTimes(before, m) && n == m + 1
    ensures CrashedTimes(after, n)
  {
    after := OneMoreCrash(before, m);
  }

  /** Any number of crash rounds after one delivery. */
  lemma {:induction false} CrashesReach(n: nat) returns (steps: seq<Step>)
    ensures CrashedTimes(steps, n)
  {
    if n == 0 {
      steps := NoCrashYet(n);
    } else {
      var before := CrashesReach(n - 1);
      steps := CrashedAgain(before, n - 1, n);
    }
  }

  lemma LastRound(n: nat)
    ensures var s1 := Next(AfterCrashes(n), Deliver(Q.ClaimNext(0)));
      var a := Handle(0, FLAKY, ACCEPTING, 9, Crashed);
      Next(s1, a).forge[FLAKY.fp] == Ledger(n + 1, n, 0, 0, 0) && !HitByFault(s1, a, FLAKY.fp)
  {
    var s := AfterCrashes(n);
    var s1 := Next(s, Deliver(Q.ClaimNext(0)));
    assert s1.queue.workers == map[0 := Q.Working(0, 0)];
    assert Claim(s.store, FLAKY) == AfterCrashes(n + 1).store;
    var p1 := Proc(AfterCrashes(n + 1).store, s.forge, Running, 8, Crashed);
    var c := CellOf(p1, FLAKY.fp);
    assert c == Cell(WOKEN, Ledger(n, n, 0, 0, 0), Running, 8, Crashed);
    assert Dispatch(c, "api", ACCEPTING).ledger == Ledger(n + 1, n, 0, 0, 0);
  }

  /** The ticket bound cannot be improved: any number of faults can be met exactly. */
  lemma TicketBoundIsMet(n: nat) returns (steps: seq<Step>)
    ensures Faults(Init(5), steps, FLAKY.fp) == n
    ensures Run(Init(5), steps).forge[FLAKY.fp].landed == n + 1
  {
    var before := CrashesReach(n);
    LastRound(n);
    var claim := Deliver(Q.ClaimNext(0));
    RunAppend(Init(5), before, claim);
    RunAppend(Init(5), before + [claim], Handle(0, FLAKY, ACCEPTING, 9, Crashed));
    steps := before + [claim] + [Handle(0, FLAKY, ACCEPTING, 9, Crashed)];
  }

  // --- counting, comments, deliveries --------------------------------------------------

  /** A fingerprint's count is the number of stored events marked counted and bound to it. */
  lemma CountsAreExact(maxAttempts: nat, steps: seq<Step>, h: FpHash)
    requires maxAttempts > 0
    ensures var st := Run(Init(maxAttempts), steps).store;
      h in st.fps ==>
        st.fps[h].occurrences == |set id | id in st.events && st.events[id].counted && st.events[id].fp == Some(h)|
  {
    Reachable(maxAttempts, steps);
    var st := Run(Init(maxAttempts), steps).store;
    assert CountedFor(st.events, h) == set id | id in st.events && st.events[id].counted && st.events[id].fp == Some(h);
  }

  /** A completed delivery has every one of its events counted and dispatched. */
  lemma CompletedIsDispatched(maxAttempts: nat, steps: seq<Step>, i: nat, id: EventId)
    requires maxAttempts > 0
    requires var q := Run(Init(maxAttempts), steps).queue;
      i < |q.rows| && q.rows[i].state.Completed? && id in q.rows[i].ids
    ensures var st := Run(Init(maxAttempts), steps).store;
      id in st.events && st.events[id].counted && st.events[id].dispatched
  {
    Reachable(maxAttempts, steps);
    var s := Run(Init(maxAttempts), steps);
    assert Q.RowOk(s.queue.rows[i], Dispatched(s.store), maxAttempts) by { MaxAttemptsFixed(maxAttempts, steps); }
  }

  lemma {:induction false} MaxAttemptsFixed(maxAttempts: nat, steps: seq<Step>)
    ensures Run(Init(maxAttempts), steps).queue.maxAttempts == maxAttempts
    decreases |steps|
  {
    if steps != [] {
      MaxAttemptsFixed(maxAttempts, Front(steps));
      QueueStep(Run(Init(maxAttempts), Front(steps)), Last(steps));
    }
  }

  predicate FewComments(s: Sys, h: FpHash) {
    var c := s.forge[h].persisted;
    && s.forge[h].posted == c + s.forge[h].unsaved
    && (c >= 1 ==> h in s.store.fps && Pow2(c + 1) <= s.store.fps[h].commentedAt <= s.store.fps[h].occurrences)
  }

  lemma InvFewComments(s: Sys, h: FpHash)
    requires Inv(s)
    ensures FewComments(s, h)
  {
    assert FpOk(s.store, s.forge, h);
  }

  /** Comments are logarithmic in the occurrences: `c` remembered ones need 2^(c+1) events. */
  lemma CommentsAreLogarithmic(maxAttempts: nat, steps: seq<Step>, h: FpHash)
    requires maxAttempts > 0
    ensures FewComments(Run(Init(maxAttempts), steps), h)
  {
    assert Inv(Run(Init(maxAttempts), steps)) by { Reachable(maxAttempts, steps); }
    InvFewComments(Run(Init(maxAttempts), steps), h);
  }

  // --- severities ------------------------------------------------------------------------

  /** The step claims an event for `h`: the transaction that counts it went through. */
  predicate ClaimsFor(s: Sys, a: Step, h: FpHash) {
    a.Handle? && CanHandle(s, a.w, a.ev, a.env) && a.ev.fp == h && a.ops > 0
  }

  /** The severities of the events claimed for a fingerprint during a run. */
  function Severities(s: Sys, steps: seq<Step>, h: FpHash): seq<Severity>
    decreases |steps|
  {
    if steps == [] then []
    else
      Severities(s, Front(steps), h)
      + (if ClaimsFor(Run(s, Front(steps)), Last(steps), h) then [Last(steps).ev.severity] else [])
  }

  function Highest(ss: seq<Severity>): Severity
    requires ss != []
  {
    if |ss| == 1 then ss[0]
    else
      var rest, last := Highest(ss[..|ss| - 1]), ss[|ss| - 1];
      if last.Rank() > rest.Rank() then last else rest
  }

  lemma {:induction false} HighestIsHighest(ss: seq<Severity>)
    requires ss != []
    ensures Highest(ss) in ss && forall i :: 0 <= i < |ss| ==> ss[i].Rank() <= Highest(ss).Rank()
  {
    if |ss| > 1 { HighestIsHighest(ss[..|ss| - 1]); }
  }

  lemma PassSeverity(p: Proc, ev: LogEvent, env: Env, h: FpHash)
    requires HonestForge(env) && DataOk(p.store, p.forge) && ev.fp in p.store.fps
    ensures var q := PolicyPass(p, ev, env);
      && (h in q.store.fps <==> h in p.store.fps)
      && (h in p.store.fps ==> q.store.fps[h].severity == p.store.fps[h].severity)
  {
    assert FpOk(p.store, p.forge, ev.fp);
    DispatchKeeps(CellOf(p, ev.fp), ev.service, env);
  }

  lemma HandleSeverity(p: Proc, ev: LogEvent, env: Env, h: FpHash)
    requires p.mode.Running? && HonestForge(env) && DataOk(p.store, p.forge)
    ensures var q := HandleEvent(p, ev, env);
      if h == ev.fp && p.ops > 0 then h in q.store.fps && q.store.fps[h].severity == ev.severity
      else (h in q.store.fps <==> h in p.store.fps)
           && (h in p.store.fps ==> q.store.fps[h].severity == p.store.fps[h].severity)
  {
    ClaimData(p.store, p.forge, ev);
    var p1 := Write(p, Claim(p.store, ev));
    if p1.mode.Running? { PassSeverity(p1, ev, env, h); }
  }

  /** A claim writes the event's severity over the stored one, and nothing else touches it. */
  lemma StepSeverity(s: Sys, a: Step, h: FpHash)
    requires Inv(s)
    ensures var fps, fps' := s.store.fps, Next(s, a).store.fps;
      if ClaimsFor(s, a, h) then h in fps' && fps'[h].severity == a.ev.severity
      else (h in fps' <==> h in fps) && (h in fps ==> fps'[h].severity == fps[h].severity)
  {
    if a.Handle? && CanHandle(s, a.w, a.ev, a.env) {
      HandleSeverity(Proc(s.store, s.forge, Running, a.ops, a.stop), a.ev, a.env, h);
    }
  }

  /** The stored severity is the last of those seen; nothing is stored when none was. */
  predicate IsLast(fps: map<FpHash, Fingerprint>, ss: seq<Severity>, h: FpHash) {
    && (h in fps <==> ss != [])
    && (ss != [] ==> fps[h].severity == ss[|ss| - 1])
  }

  lemma StepIsLast(s: Sys, a: Step, ss: seq<Severity>, h: FpHash)
    requires Inv(s) && IsLast(s.store.fps, ss, h)
    ensures IsLast(Next(s, a).store.fps, ss + (if ClaimsFor(s, a, h) then [a.ev.severity] else []), h)
  {
    StepSeverity(s, a, h);
    assert ss + [] == ss;
  }

  /** The stored severity is that of the event claimed last. */
  lemma {:induction false} SeverityIsLast(maxAttempts: nat, steps: seq<Step>, h: FpHash)
    requires maxAttempts > 0
    ensures IsLast(Run(Init(maxAttempts), steps).store.fps, Severities(Init(maxAttempts), steps, h), h)
    decreases |steps|
  {
    if steps != [] {
      var s := Run(Init(maxAttempts), Front(steps));
      SeverityIsLast(maxAttempts, Front(steps), h);
      assert Inv(s) by { Reachable(maxAttempts, Front(steps)); }
      StepIsLast(s, Last(steps), Severities(Init(maxAttempts), Front(steps), h), h);
      assert Run(Init(maxAttempts), steps) == Next(s, Last(steps));
    }
  }

  predicate NoneOutranksLast(ss: seq<Severity>)
    requires ss != []
  {
    forall i :: 0 <= i < |ss| ==> ss[i].Rank() <= ss[|ss| - 1].Rank()
  }

  lemma StoredIsHighestIff(fps: map<FpHash, Fingerprint>, ss: seq<Severity>, h: FpHash)
    requires IsLast(fps, ss, h) && h in fps
    ensures ss != [] && (fps[h].severity == Highest(ss) <==> NoneOutranksLast(ss))
  {
    HighestIsHighest(ss);
    SameRankSame(ss[|ss| - 1], Highest(ss));
  }

  /** It is the highest seen exactly when no earlier event outranks the last. */
  lemma SeverityIsHighestIff(maxAttempts: nat, steps: seq<Step>, h: FpHash)
    requires maxAttempts > 0 && h in Run(Init(maxAttempts), steps).store.fps
    ensures var ss := Severities(Init(maxAttempts), steps, h);
      && ss != []
      && (Run(Init(maxAttempts), steps).store.fps[h].severity == Highest(ss) <==> NoneOutranksLast(ss))
  {
    SeverityIsLast(maxAttempts, steps, h);
    StoredIsHighestIff(Run(Init(maxAttempts), steps).store.fps, Severities(Init(maxAttempts), steps, h), h);
  }

  lemma SameRankSame(a: Severity, b: Severity)
    ensures a.Rank() == b.Rank() <==> a == b
  {
  }

  const BOTH := Q.DeliveryRow("d", [FLAKY.id, "evt-later"], Processing, 0)
  const LATER := LogEvent("evt-later", "fp-flaky", "api", Info)
  const CAPPED := ACCEPTING.(ticketsThisHour := 11)

  /** One delivery of a critical event and then an informational one. */
  const DROPPING: seq<Step> :=
    [Deliver(Q.Accept("d", [FLAKY.id, "evt-later"])), Deliver(Q.ClaimNext(0)),
     Handle(0, FLAKY, CAPPED, 9, Crashed), Handle(0, LATER, CAPPED, 9, Crashed)]

  lemma BothClaimed()
    ensures var s := Next(Next(Init(5), DROPPING[0]), DROPPING[1]);
      s.store == EMPTY_STORE && s.queue == Q.Queue([BOTH], map[0 := Q.Working(0, 0)], true, 5)
  {
    var s1 := Next(Init(5), DROPPING[0]);
    assert s1.queue.rows == [BOTH.(state := Pending)];
    var workers: map<nat, Q.Worker> := map[];
    assert s1.queue.workers == workers && workers[0 := Q.Working(0, 0)] == map[0 := Q.Working(0, 0)];
    assert Next(s1, DROPPING[1]).queue.rows == [BOTH];
  }

  lemma FirstOfBoth(s: Sys)
    requires s.store == EMPTY_STORE && s.queue == Q.Queue([BOTH], map[0 := Q.Working(0, 0)], true, 5)
    ensures ClaimsFor(s, DROPPING[2], FLAKY.fp) && ClaimsFor(Next(s, DROPPING[2]), DROPPING[3], FLAKY.fp)
  {
    assert Claim(s.store, FLAKY).fps[FLAKY.fp] == WOKEN;
    assert Pass(s, FLAKY, CAPPED, 9, Crashed).mode.Running?;
    assert Next(s, DROPPING[2]).queue.workers == map[0 := Q.Working(0, 1)];
  }

  lemma SeveritiesAppend(s: Sys, steps: seq<Step>, a: Step, h: FpHash)
    ensures Severities(s, steps + [a], h)
         == Severities(s, steps, h) + (if ClaimsFor(Run(s, steps), a, h) then [a.ev.severity] else [])
  {
    assert Front(steps + [a]) == steps;
  }

  lemma DroppingSeverities()
    ensures Severities(Init(5), DROPPING, FLAKY.fp) == [Critical, Info]
  {
    var s0, h := Init(5), FLAKY.fp;
    var one := [] + [DROPPING[0]];
    var two := one + [DROPPING[1]];
    var three := two + [DROPPING[2]];
    assert three + [DROPPING[3]] == DROPPING;
    RunAppend(s0, [], DROPPING[0]);
    RunAppend(s0, one, DROPPING[1]);
    RunAppend(s0, two, DROPPING[2]);
    SeveritiesAppend(s0, [], DROPPING[0], h);
    SeveritiesAppend(s0, one, DROPPING[1], h);
    SeveritiesAppend(s0, two, DROPPING[2], h);
    SeveritiesAppend(s0, three, DROPPING[3], h);
    BothClaimed();
    FirstOfBoth(Run(s0, two));
  }

  /** A stored severity can drop below the highest seen. */
  lemma SeverityCanDrop()
    ensures var ss := Severities(Init(5), DROPPING, FLAKY.fp);
      && FLAKY.fp in Run(Init(5), DROPPING).store.fps && ss != []
      && Run(Init(5), DROPPING).store.fps[FLAKY.fp].severity == Info
      && Highest(ss) == Critical
  {
    DroppingSeverities();
    SeverityIsLast(5, DROPPING, FLAKY.fp);
    assert [Critical, Info][..1] == [Critical];
  }

  /** Every reachable delivery table: one row a key, one owner a row, owners only of rows in
      processing, and a pending row always below the attempt cap. */
  lemma DeliveriesAreOwned(maxAttempts: nat, steps: seq<Step>)
    requires maxAttempts > 0
    ensures var q := Run(Init(maxAttempts), steps).queue;
      && Q.KeysUnique(q.rows) && Q.SingleOwner(q)
      && (forall w | w in q.workers :: q.workers[w].row < |q.rows| && q.rows[q.workers[w].row].state.Processing?)
      && (forall i :: 0 <= i < |q.rows| && q.rows[i].state.Pending? ==> q.rows[i].attempts < maxAttempts)
  {
    Reachable(maxAttempts, steps);
    MaxAttemptsFixed(maxAttempts, steps);
    var s := Run(Init(maxAttempts), steps);
    forall i | 0 <= i < |s.queue.rows| && s.queue.rows[i].state.Pending?
      ensures s.queue.rows[i].attempts < maxAttempts
    {
      assert Q.RowOk(s.queue.rows[i], Dispatched(s.store), maxAttempts);
    }
  }

  /** A delivery is given up exactly when its attempts are used up, in every reachable state. */
  lemma FailedIffUsedUp(maxAttempts: nat, steps: seq<Step>, i: nat)
    requires maxAttempts > 0 && i < |Run(Init(maxAttempts), steps).queue.rows|
    ensures var row := Run(Init(maxAttempts), steps).queue.rows[i];
      row.state.Failed? <==> row.attempts >= maxAttempts
  {
    Reachable(maxAttempts, steps);
    MaxAttemptsFixed(maxAttempts, steps);
    var s := Run(Init(maxAttempts), steps);
    assert Q.RowOk(s.queue.rows[i], Dispatched(s.store), s.queue.maxAttempts);
  }

  /** The failed attempts a run records at row `i`. */
  function FailuresAt(s: Sys, steps: seq<Step>, i: nat): nat
    decreases |steps|
  {
    if steps == [] then 0
    else
      var t := Run(s, Front(steps));
      FailuresAt(s, Front(steps), i) + if Q.Fails(t.queue, TableStep(t, Last(steps)), i) then 1 else 0
  }

  lemma {:induction false} NoRowNoFailures(s: Sys, steps: seq<Step>, i: nat)
    ensures |s.queue.rows| <= |Run(s, steps).queue.rows|
    ensures i >= |Run(s, steps).queue.rows| ==> FailuresAt(s, steps, i) == 0
    decreases |steps|
  {
    if steps != [] {
      NoRowNoFailures(s, Front(steps), i);
      var t := Run(s, Front(steps));
      QueueStep(t, Last(steps));
      RowsStay(t.queue, TableStep(t, Last(steps)));
    }
  }

  lemma RowsStay(q: Q.Queue, a: Q.Step)
    ensures |q.rows| <= |Q.Next(q, a).rows|
  {
  }

  /** Over every run a delivery's attempts are the failures recorded for it: a claim, a death or
      a restart costs it none. */
  lemma {:induction false} AttemptsAreFailures(maxAttempts: nat, steps: seq<Step>, i: nat)
    requires i < |Run(Init(maxAttempts), steps).queue.rows|
    ensures Run(Init(maxAttempts), steps).queue.rows[i].attempts == FailuresAt(Init(maxAttempts), steps, i)
    decreases |steps|
  {
    if steps != [] {
      var t, a := Run(Init(maxAttempts), Front(steps)), Last(steps);
      QueueStep(t, a);
      if i < |t.queue.rows| {
        AttemptsAreFailures(maxAttempts, Front(steps), i);
        Q.FailureIs(t.queue, TableStep(t, a), i);
      } else {
        Q.NewRowIs(t.queue, TableStep(t, a), i);
        NoRowNoFailures(Init(maxAttempts), Front(steps), i);
      }
    }
  }

  /** A restart puts every delivery in processing back to pending with the attempts it had, arms
      every reservation without a ticket again, and touches nothing else. */
  lemma RestartArms(s: Sys)
    requires !s.queue.up
    ensures var s' := Next(s, Deliver(Q.Restart));
      && s'.store.events == s.store.events && s'.forge == s.forge && s'.queue.up
      && s'.store.fps.Keys == s.store.fps.Keys && |s'.queue.rows| == |s.queue.rows|
      && (forall h | h in s.store.fps ::
            s'.store.fps[h] == if s.store.fps[h].ticket == None && s.store.fps[h].reservedAt != None
                               then s.store.fps[h].(state := New, reservedAt := None) else s.store.fps[h])
      && (forall i :: 0 <= i < |s.queue.rows| ==>
            s'.queue.rows[i] == if s.queue.rows[i].state == Processing
                                then s.queue.rows[i].(state := Pending) else s.queue.rows[i])
  {
    forall i | 0 <= i < |s.queue.rows|
      ensures Next(s, Deliver(Q.Restart)).queue.rows[i] == if s.queue.rows[i].state == Processing
        then s.queue.rows[i].(state := Pending) else s.queue.rows[i]
    {
      Q.RestartIs(s.queue, i);
    }
  }

  /** A completed or failed delivery is never touched again. */
  lemma {:induction false} TerminalForever(s: Sys, steps: seq<Step>, i: nat)
    requires Inv(s) && i < |s.queue.rows|
    requires s.queue.rows[i].state.Completed? || s.queue.rows[i].state.Failed?
    ensures Inv(Run(s, steps))
    ensures i < |Run(s, steps).queue.rows| && Run(s, steps).queue.rows[i] == s.queue.rows[i]
    decreases |steps|
  {
    if steps != [] {
      TerminalForever(s, Front(steps), i);
      var t := Run(s, Front(steps));
      StepKeeps(t, Last(steps));
      Q.TerminalStays(t.queue, TableStep(t, Last(steps)), Dispatched(t.store), i);
    }
  }

  /** Claims that took a delivery during a run. */
  function ClaimsIn(s: Sys, steps: seq<Step>): nat
    decreases |steps|
  {
    if steps == [] then 0
    else
      var t := Run(s, Front(steps));
      ClaimsIn(s, Front(steps)) + if Q.Claims(t.queue, TableStep(t, Last(steps))) then 1 else 0
  }

  predicate Draining(steps: seq<Step>) {
    forall i :: 0 <= i < |steps| && steps[i].Deliver? ==> !steps[i].step.Accept? && !steps[i].step.Restart?
  }

  lemma QueueStep(s: Sys, a: Step)
    ensures Next(s, a).queue == Q.Next(s.queue, TableStep(s, a))
    ensures Next(s, a).queue.maxAttempts == s.queue.maxAttempts
  {
  }

  lemma DrainStep(s: Sys, a: Step)
    requires Inv(s) && (a.Deliver? ==> !a.step.Accept? && !a.step.Restart?)
    ensures (if Q.Claims(s.queue, TableStep(s, a)) then 1 else 0)
        + Q.TotalFuel(Next(s, a).queue.rows, s.queue.maxAttempts)
         <= Q.TotalFuel(s.queue.rows, s.queue.maxAttempts)
  {
    QueueStep(s, a);
    Q.StepBurns(s.queue, TableStep(s, a), Dispatched(s.store));
  }

  /** Without new arrivals and restarts, workers claim at most the sum of the attempts left,
      whatever fails and whoever claims. */
  lemma {:induction false} DrainIsBounded(s: Sys, steps: seq<Step>)
    requires Inv(s) && Draining(steps)
    ensures Inv(Run(s, steps)) && Run(s, steps).queue.maxAttempts == s.queue.maxAttempts
    ensures ClaimsIn(s, steps) + Q.TotalFuel(Run(s, steps).queue.rows, s.queue.maxAttempts)
         <= Q.TotalFuel(s.queue.rows, s.queue.maxAttempts)
    decreases |steps|
  {
    if steps != [] {
      DrainIsBounded(s, Front(steps));
      var t := Run(s, Front(steps));
      StepKeeps(t, Last(steps));
      QueueStep(t, Last(steps));
      DrainStep(t, Last(steps));
    }
  }
}
