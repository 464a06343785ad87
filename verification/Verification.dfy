/** Judging a merged fix: when the watch window opens, what counts against it, and what a
    pass of the watcher does with the verdict. */
module Verification {
  import opened Basics
  import opened Models

  datatype Deploy = Deploy(environment: string, sha: string, at: int)

  /** A stored event: the fingerprint it was counted for, if it is known. */
  datatype Event = Event(fp: Option<FpHash>, service: string, environment: string, ts: int)

  datatype Watched = Watched(
    hash: FpHash, service: string, environment: string, state: WorkState, chronic: bool,
    started: Option<int>, sha: string, ticket: bool)

  /** What the watcher reads: recorded deploys newest first, events, and the grace minutes,
      all of the fingerprint's service. */
  datatype World = World(deploys: seq<Deploy>, events: seq<Event>, grace: nat)

  const LIMIT: nat := 25

  function Recent(deploys: seq<Deploy>): seq<Deploy> {
    if |deploys| <= LIMIT then deploys else deploys[..LIMIT]
  }

  /** Commits are compared by prefix, whichever of the two is the short one. */
  predicate Carries(d: Deploy, sha: string) {
    sha == "" || sha <= d.sha || (|d.sha| <= |sha| && d.sha <= sha)
  }

  predicate Matches(f: Watched, d: Deploy) {
    f.started.Some? && d.environment == f.environment && d.at >= f.started.value && Carries(d, f.sha)
  }

  /** The earliest matching deploy among those listed. */
  function Earliest(f: Watched, deploys: seq<Deploy>): Option<int> {
    if deploys == [] then None
    else
      var rest, last := Earliest(f, deploys[..|deploys| - 1]), deploys[|deploys| - 1];
      if Matches(f, last) && (rest.None? || last.at < rest.value) then Some(last.at) else rest
  }

  /** When the window opens: at the merge when no deploy is recorded, at the first deploy that
      carries the fix otherwise, and not at all while there is none. */
  function Opens(f: Watched, deploys: seq<Deploy>): Option<int> {
    if f.started.None? then None
    else if Recent(deploys) == [] then f.started
    else
      var first := Earliest(f, Recent(deploys));
      if first.None? then None
      else Some(if f.started.value > first.value then f.started.value else first.value)
  }

  predicate InWindow(f: Watched, e: Event, from: int, to: int) {
    e.service == f.service && e.environment == f.environment && from <= e.ts <= to
  }

  function Bound(f: Watched, events: seq<Event>, from: int, to: int): nat {
    if events == [] then 0
    else
      var last := events[|events| - 1];
      Bound(f, events[..|events| - 1], from, to)
      + (if InWindow(f, last, from, to) && last.fp == Some(f.hash) then 1 else 0)
  }

  function Unbound(f: Watched, events: seq<Event>, from: int, to: int): nat {
    if events == [] then 0
    else
      var last := events[|events| - 1];
      Unbound(f, events[..|events| - 1], from, to) + (if InWindow(f, last, from, to) && last.fp.None? then 1 else 0)
  }

  /** The count, unless some event in the window is not known to belong to anything. */
  function Counted(f: Watched, events: seq<Event>, from: int, to: int): Option<nat> {
    if Unbound(f, events, from, to) > 0 then None else Some(Bound(f, events, from, to))
  }

  datatype WatchInputs = WatchInputs(occurrences: nat, elapsed: bool, deployed: bool, reverted: bool)

  function Window(grace: nat): nat { if 3 * grace > 60 then 3 * grace else 60 }

  function GraceInputs(f: Watched, w: World, now: int): WatchInputs {
    match Opens(f, w.deploys)
    case None => WatchInputs(0, false, false, false)
    case Some(start) =>
      match Counted(f, w.events, start, now)
      case None => WatchInputs(0, false, false, false)
      case Some(n) => WatchInputs(n, now - start >= 60 * Window(w.grace), true, false)
  }

  datatype Verdict = Success | Insufficient | Inconclusive

  function DecideVerdict(watch: WatchInputs): Verdict {
    if watch.reverted then Inconclusive
    else if !watch.deployed then Inconclusive
    else if !watch.elapsed then Inconclusive
    else if watch.occurrences == 0 then Success
    else Insufficient
  }

  function Judge(f: Watched, w: World, now: int): Verdict { DecideVerdict(GraceInputs(f, w, now)) }

  // --- what success means ---------------------------------------------------------------------

  /** The start is the earliest of the matching deploys. */
  ghost predicate IsEarliest(f: Watched, deploys: seq<Deploy>, start: int) {
    && (exists i :: 0 <= i < |deploys| && Matches(f, deploys[i]) && deploys[i].at == start)
    && (forall i :: 0 <= i < |deploys| && Matches(f, deploys[i]) ==> start <= deploys[i].at)
  }

  lemma {:induction false} EarliestIs(f: Watched, deploys: seq<Deploy>)
    ensures Earliest(f, deploys).None? <==> forall i :: 0 <= i < |deploys| ==> !Matches(f, deploys[i])
    ensures Earliest(f, deploys).Some? ==> IsEarliest(f, deploys, Earliest(f, deploys).value)
  {
    if deploys != [] {
      var rest, last := deploys[..|deploys| - 1], deploys[|deploys| - 1];
      EarliestIs(f, rest);
      if Earliest(f, rest).Some? {
        var i :| 0 <= i < |rest| && Matches(f, rest[i]) && rest[i].at == Earliest(f, rest).value;
        assert deploys[i] == rest[i];
      }
      assert forall i :: 0 <= i < |rest| ==> rest[i] == deploys[i];
    }
  }

  ghost predicate Quiet(f: Watched, events: seq<Event>, from: int, to: int) {
    forall i :: 0 <= i < |events| && InWindow(f, events[i], from, to) ==>
      events[i].fp.Some? && events[i].fp != Some(f.hash)
  }

  lemma {:induction false} QuietCounts(f: Watched, events: seq<Event>, from: int, to: int)
    ensures Counted(f, events, from, to) == Some(0) <==> Quiet(f, events, from, to)
  {
    if events != [] {
      var rest, last := events[..|events| - 1], events[|events| - 1];
      QuietCounts(f, rest, from, to);
      assert Quiet(f, events, from, to) ==> Quiet(f, rest, from, to) by {
        assert forall i :: 0 <= i < |rest| ==> rest[i] == events[i];
      }
      assert InWindow(f, last, from, to) && (last.fp.None? || last.fp == Some(f.hash)) ==> !Quiet(f, events, from, to);
      if Quiet(f, rest, from, to) && !(InWindow(f, last, from, to) && (last.fp.None? || last.fp == Some(f.hash))) {
        forall i | 0 <= i < |events| && InWindow(f, events[i], from, to)
          ensures events[i].fp.Some? && events[i].fp != Some(f.hash)
        {
          if i < |rest| { assert rest[i] == events[i]; }
        }
      }
    }
  }

  /** Where the window may open. */
  ghost predicate OpensAt(f: Watched, deploys: seq<Deploy>, start: int) {
    && f.started.Some?
    && (if deploys == [] then start == f.started.value else IsEarliest(f, Recent(deploys), start))
  }

  lemma OpensIsEarliest(f: Watched, deploys: seq<Deploy>, start: int)
    ensures Opens(f, deploys) == Some(start) <==> OpensAt(f, deploys, start)
  {
    EarliestIs(f, Recent(deploys));
    if IsEarliest(f, Recent(deploys), start) {
      var i :| 0 <= i < |Recent(deploys)| && Matches(f, Recent(deploys)[i]) && Recent(deploys)[i].at == start;
    }
  }

  /** The window opened at `start`, at least an hour and three grace periods ago, and nothing
      was seen since. */
  ghost predicate Confirms(f: Watched, w: World, start: int, now: int) {
    && OpensAt(f, w.deploys, start)
    && now - start >= 3600 && now - start >= 3 * 60 * w.grace
    && Quiet(f, w.events, start, now)
  }

  /** A fix is confirmed exactly when the window is open since a start that is the earliest
      matching deploy among the 25 newest, or the merge when no deploy is recorded; that was
      at least max(3 x grace, 60) minutes ago; and since then neither an event of this
      fingerprint nor one of unknown fingerprint was seen in its service and environment. */
  lemma SuccessMeans(f: Watched, w: World, now: int)
    ensures Judge(f, w, now) == Success
      <==> exists start :: Confirms(f, w, start, now)
  {
    match Opens(f, w.deploys) {
      case None =>
        forall start ensures !Confirms(f, w, start, now) { OpensIsEarliest(f, w.deploys, start); }
      case Some(first) =>
        OpensIsEarliest(f, w.deploys, first);
        QuietCounts(f, w.events, first, now);
        assert Judge(f, w, now) == Success <==> Confirms(f, w, first, now);
        forall start | Confirms(f, w, start, now) ensures start == first { OpensIsEarliest(f, w.deploys, start); }
    }
  }

  // --- other deploys cannot help -----------------------------------------------------------------

  lemma {:induction false} EarliestIgnores(f: Watched, a: seq<Deploy>, b: seq<Deploy>, d: Deploy)
    requires !Matches(f, d)
    ensures Earliest(f, a + [d] + b) == Earliest(f, a + b)
    decreases |b|
  {
    if b == [] {
      assert (a + [d] + b)[..|a|] == a && a + b == a;
    } else {
      EarliestIgnores(f, a, b[..|b| - 1], d);
      assert (a + [d] + b)[..|a + [d] + b| - 1] == a + [d] + b[..|b| - 1];
      assert (a + b)[..|a + b| - 1] == a + b[..|b| - 1];
    }
  }

  /** As long as all recorded deploys are looked at, recording one that does not carry the fix
      never turns anything into a success, wherever in the order it falls. */
  lemma OtherDeploysCannotHelp(f: Watched, w: World, a: seq<Deploy>, b: seq<Deploy>, d: Deploy, now: int)
    requires w.deploys == a + b && |a + b| < LIMIT && !Matches(f, d)
    ensures Judge(f, w.(deploys := a + [d] + b), now) == Success ==> Judge(f, w, now) == Success
    ensures w.deploys != [] ==> Judge(f, w.(deploys := a + [d] + b), now) == Judge(f, w, now)
  {
    EarliestIgnores(f, a, b, d);
    if w.deploys == [] {
      assert a + [d] + b == [d];
      assert Earliest(f, [d]) == None by { EarliestIs(f, [d]); }
    }
  }

  /** A deploy recorded behind the 25 newest changes nothing either. */
  lemma HiddenDeploysChangeNothing(f: Watched, w: World, a: seq<Deploy>, b: seq<Deploy>, d: Deploy, now: int)
    requires w.deploys == a + b && |a| >= LIMIT
    ensures Judge(f, w.(deploys := a + [d] + b), now) == Judge(f, w, now)
  {
    assert Recent(a + [d] + b) == Recent(a + b);
  }

  /** The deploy carries the fix, and did so before any of the others that do. */
  predicate OnlyEarliest(f: Watched, d: Deploy, others: seq<Deploy>) {
    Matches(f, d) && forall i :: 0 <= i < |others| && Matches(f, others[i]) ==> d.at < others[i].at
  }

  /** What the window becomes when the last deploy in view is pushed out of it. */
  lemma ViewShifts(f: Watched, deploys: seq<Deploy>, a: seq<Deploy>, b: seq<Deploy>, d: Deploy)
    requires deploys == a + b && |a| < LIMIT <= |deploys| && !Matches(f, d)
    ensures Recent(a + [d] + b) != [] && Earliest(f, Recent(a + [d] + b)) == Earliest(f, deploys[..LIMIT - 1])
    ensures Recent(deploys) == deploys[..LIMIT - 1] + [deploys[LIMIT - 1]]
  {
    var kept := b[..LIMIT - 1 - |a|];
    assert Recent(a + [d] + b) == a + [d] + kept;
    assert deploys[..LIMIT - 1] == a + kept;
    EarliestIgnores(f, a, kept, d);
  }

  lemma EarliestWithLast(f: Watched, rest: seq<Deploy>, last: Deploy)
    ensures var first := Earliest(f, rest);
      Earliest(f, rest + [last]) == if OnlyEarliest(f, last, rest) then Some(last.at) else first
  {
    EarliestIs(f, rest);
    assert (rest + [last])[..|rest|] == rest;
    if Earliest(f, rest).Some? {
      var i :| 0 <= i < |rest| && Matches(f, rest[i]) && rest[i].at == Earliest(f, rest).value;
      assert OnlyEarliest(f, last, rest) ==> last.at < rest[i].at;
    }
  }

  /** A success that the shift brings about: the first deploy of the fix went out of view, the
      next one confirms it, and what was seen between the two is forgotten. */
  ghost predicate Forgets(f: Watched, w: World, pushed: Deploy, rest: seq<Deploy>, now: int) {
    OnlyEarliest(f, pushed, rest)
    && exists e :: IsEarliest(f, rest, e)
         && now - e >= 3600 && now - e >= 3 * 60 * w.grace
         && Quiet(f, w.events, e, now) && !Quiet(f, w.events, pushed.at, e - 1)
  }

  lemma QuietSplits(f: Watched, events: seq<Event>, from: int, mid: int, to: int)
    requires from <= mid <= to + 1
    ensures Quiet(f, events, from, to) <==> Quiet(f, events, from, mid - 1) && Quiet(f, events, mid, to)
  {
  }

  lemma JudgedFrom(f: Watched, w: World, start: int, now: int)
    requires Opens(f, w.deploys) == Some(start)
    ensures Judge(f, w, now) == Success
      <==> now - start >= 3600 && now - start >= 3 * 60 * w.grace && Quiet(f, w.events, start, now)
  {
    QuietCounts(f, w.events, start, now);
  }

  lemma EarliestIsUnique(f: Watched, deploys: seq<Deploy>, start: int)
    ensures IsEarliest(f, deploys, start) <==> Earliest(f, deploys) == Some(start)
  {
    EarliestIs(f, deploys);
    if IsEarliest(f, deploys, start) {
      var i :| 0 <= i < |deploys| && Matches(f, deploys[i]) && deploys[i].at == start;
    }
  }

  lemma MatchedOpens(f: Watched, deploys: seq<Deploy>)
    requires Recent(deploys) != []
    ensures Opens(f, deploys) == Earliest(f, Recent(deploys))
  {
    EarliestIs(f, Recent(deploys));
  }

  /** With the view full, a deploy that does not carry the fix and comes among the 25 newest
      pushes the last of them out.  It makes a success exactly when that was the first deploy
      of the fix and the window forgets what followed it; unless it was the first, the
      verdict does not change at all. */
  lemma OtherDeploysHelpIff(f: Watched, w: World, a: seq<Deploy>, b: seq<Deploy>, d: Deploy, now: int)
    requires w.deploys == a + b && |a| < LIMIT <= |w.deploys| && !Matches(f, d)
    ensures var pushed, rest, w' := w.deploys[LIMIT - 1], w.deploys[..LIMIT - 1], w.(deploys := a + [d] + b);
      && (!OnlyEarliest(f, pushed, rest) ==> Judge(f, w', now) == Judge(f, w, now))
      && (Judge(f, w', now) == Success && Judge(f, w, now) != Success <==> Forgets(f, w, pushed, rest, now))
  {
    var pushed, rest, w' := w.deploys[LIMIT - 1], w.deploys[..LIMIT - 1], w.(deploys := a + [d] + b);
    ViewShifts(f, w.deploys, a, b, d);
    EarliestWithLast(f, rest, pushed);
    MatchedOpens(f, w.deploys);
    MatchedOpens(f, w'.deploys);
    if OnlyEarliest(f, pushed, rest) {
      assert Opens(f, w.deploys) == Some(pushed.at) && Opens(f, w'.deploys) == Earliest(f, rest);
      SuccessShifts(f, w, w', pushed, rest, now);
    }
  }

  lemma SuccessShifts(f: Watched, w: World, w': World, pushed: Deploy, rest: seq<Deploy>, now: int)
    requires w' == w.(deploys := w'.deploys) && OnlyEarliest(f, pushed, rest)
    requires Opens(f, w.deploys) == Some(pushed.at) && Opens(f, w'.deploys) == Earliest(f, rest)
    ensures Judge(f, w', now) == Success && Judge(f, w, now) != Success <==> Forgets(f, w, pushed, rest, now)
  {
    forall e ensures IsEarliest(f, rest, e) <==> Earliest(f, rest) == Some(e) { EarliestIsUnique(f, rest, e); }
    JudgedFrom(f, w, pushed.at, now);
    if Earliest(f, rest).Some? {
      var e := Earliest(f, rest).value;
      assert IsEarliest(f, rest, e);
      var i :| 0 <= i < |rest| && Matches(f, rest[i]) && rest[i].at == e;
      JudgedFrom(f, w', e, now);
      if e <= now { QuietSplits(f, w.events, pushed.at, e, now); }
    }
  }

  function Copies(d: Deploy, n: nat): seq<Deploy> { seq(n, _ => d) }

  lemma {:induction false} EarliestOfCopies(f: Watched, a: seq<Deploy>, d: Deploy, n: nat)
    requires !Matches(f, d)
    ensures Earliest(f, a + Copies(d, n)) == Earliest(f, a)
  {
    if n == 0 {
      assert a + Copies(d, 0) == a;
    } else {
      EarliestOfCopies(f, a, d, n - 1);
      assert (a + Copies(d, n))[..|a| + n - 1] == a + Copies(d, n - 1);
    }
  }

  /** With the limit reached it can: a later deploy of something else pushes the first deploy
      of the fix out of sight, and with it the recurrence that came after it. */
  lemma OtherDeploysCanHelpPastTheLimit()
    ensures exists f, w: World, d, now ::
      && !Matches(f, d) && |w.deploys| == LIMIT
      && Judge(f, w, now) == Insufficient && Judge(f, w.(deploys := [d] + w.deploys), now) == Success
  {
    var f := Watched("fp", "svc", "prod", Verifying, false, Some(0), "fix", false);
    var first, again, other := Deploy("prod", "fix", 0), Deploy("prod", "fix", 1000), Deploy("prod", "other", 500);
    var d := Deploy("prod", "other", 2000);
    var events := [Event(Some("fp"), "svc", "prod", 50)];
    var w := World([again] + Copies(other, 23) + [first], events, 1);
    var now := 1000 + 3600;
    assert !Carries(other, "fix") by { assert "fix"[0] != "other"[0]; }
    EarliestOfCopies(f, [again], other, 23);
    assert Earliest(f, [again]) == Some(1000) by { assert [again][..0] == []; }
    assert w.deploys[..24] == [again] + Copies(other, 23);
    assert Opens(f, w.deploys) == Some(0);
    assert events[..0] == [];
    assert Bound(f, events, 0, now) == 1 && Unbound(f, events, 0, now) == 0;
    EarliestOfCopies(f, [d, again], other, 23);
    assert Earliest(f, [d, again]) == Some(1000) by {
      assert [d, again][..1] == [d] && [d][..0] == [];
    }
    var later := w.(deploys := [d] + w.deploys);
    assert Recent(later.deploys) == [d, again] + Copies(other, 23);
    assert Bound(f, events, 1000, now) == 0 && Unbound(f, events, 1000, now) == 0;
    assert Judge(f, w, now) == Insufficient && Judge(f, later, now) == Success;
  }

  // --- a pass of the watcher --------------------------------------------------------------------------

  /** What a verdict makes of a work state and its chronic mark. */
  function Outcome(state: WorkState, chronic: bool, v: Verdict): (WorkState, bool) {
    match v
    case Success => (VerifiedClosed, chronic)
    case Insufficient => (Reopened, true)
    case Inconclusive => (state, chronic)
  }

  function Applied(f: Watched, v: Verdict): Watched {
    var (state, chronic) := Outcome(f.state, f.chronic, v);
    f.(state := state, chronic := chronic)
  }

  /** How one fingerprint's turn goes: through, or a call to the forge, the row write, or the
      audit entry after it raises and ends the pass. */
  datatype Turn = Smooth | ForgeFails | SaveFails | AuditFails

  /** The forge is called only for a ticket with something to say. */
  predicate CallsForge(f: Watched, v: Verdict) { f.ticket && !v.Inconclusive? }

  predicate Stores(f: Watched, v: Verdict, turn: Turn) {
    turn.Smooth? || turn.AuditFails? || (turn.ForgeFails? && !CallsForge(f, v))
  }

  predicate Goes(f: Watched, v: Verdict, turn: Turn) {
    turn.Smooth? || (turn.ForgeFails? && !CallsForge(f, v))
  }

  class VerificationWatcher {
    var fixes: seq<Watched>

    constructor (fixes: seq<Watched>)
      ensures this.fixes == fixes
    {
      this.fixes := fixes;
    }

    /** Every verifying fingerprint is judged in turn, until one turn raises.  `worlds`, `now`
        and `turns` are what each turn meets. */
    method RunOnce(worlds: seq<World>, now: seq<int>, turns: seq<Turn>) returns (done: nat)
      requires |worlds| == |now| == |turns| == |fixes|
      modifies this
      ensures |fixes| == |old(fixes)| && done <= |fixes|
      ensures forall i :: 0 <= i < |fixes| ==>
        var v := Judge(old(fixes)[i], worlds[i], now[i]);
        fixes[i] == if old(fixes)[i].state.Verifying? && (i < done || (i == done && Stores(old(fixes)[i], v, turns[i])))
                    then Applied(old(fixes)[i], v)
                    else old(fixes)[i]
      ensures done < |fixes| ==>
        && turns[done] != Smooth
        && (turns[done] == ForgeFails ==> old(fixes)[done].ticket)
        && (fixes[done] != old(fixes)[done] ==> turns[done] == AuditFails)
      ensures done < |fixes| ==>
        old(fixes)[done].state.Verifying?
        && !Goes(old(fixes)[done], Judge(old(fixes)[done], worlds[done], now[done]), turns[done])
      ensures forall i :: 0 <= i < done && old(fixes)[i].state.Verifying? ==>
        Goes(old(fixes)[i], Judge(old(fixes)[i], worlds[i], now[i]), turns[i])
    {
      done := 0;
      while done < |fixes|
        invariant |fixes| == |old(fixes)| && done <= |fixes|
        invariant forall i :: 0 <= i < |fixes| ==>
          fixes[i] == if i < done && old(fixes)[i].state.Verifying?
                      then Applied(old(fixes)[i], Judge(old(fixes)[i], worlds[i], now[i]))
                      else old(fixes)[i]
        invariant forall i :: 0 <= i < done && old(fixes)[i].state.Verifying? ==>
          Goes(old(fixes)[i], Judge(old(fixes)[i], worlds[i], now[i]), turns[i])
      {
        var f := fixes[done];
        if f.state.Verifying? {
          var verdict := DecideVerdict(GraceInputs(f, worlds[done], now[done]));
          if f.ticket && !verdict.Inconclusive? && turns[done].ForgeFails? { return; }
          if turns[done].SaveFails? { return; }
          match verdict {
            case Success => fixes := fixes[done := f.(state := VerifiedClosed)];
            case Insufficient => fixes := fixes[done := f.(state := Reopened, chronic := true)];
            case Inconclusive =>
          }
          if turns[done].AuditFails? { return; }
        }
        done := done + 1;
      }
    }
  }

  /** The window is long enough, everything in it is known, and the fingerprint was seen. */
  ghost predicate Recurs(f: Watched, w: World, start: int, now: int) {
    && OpensAt(f, w.deploys, start)
    && now - start >= 3600 && now - start >= 3 * 60 * w.grace
    && (forall i :: 0 <= i < |w.events| && InWindow(f, w.events[i], start, now) ==> w.events[i].fp != None)
    && exists i :: 0 <= i < |w.events| && InWindow(f, w.events[i], start, now) && w.events[i].fp == Some(f.hash)
  }

  lemma {:induction false} NoneUnknown(f: Watched, events: seq<Event>, from: int, to: int)
    ensures Unbound(f, events, from, to) == 0
      <==> forall i :: 0 <= i < |events| && InWindow(f, events[i], from, to) ==> events[i].fp != None
  {
    if events != [] {
      var rest, last := events[..|events| - 1], events[|events| - 1];
      NoneUnknown(f, rest, from, to);
      assert forall i :: 0 <= i < |rest| ==> rest[i] == events[i];
      assert events[|rest|] == last;
    }
  }

  lemma {:induction false} SeenCounts(f: Watched, events: seq<Event>, from: int, to: int, i: nat)
    requires i < |events| && InWindow(f, events[i], from, to) && events[i].fp == Some(f.hash)
    ensures Bound(f, events, from, to) > 0
  {
    var rest := events[..|events| - 1];
    if i < |rest| { SeenCounts(f, rest, from, to, i); }
  }

  lemma RecursFrom(f: Watched, w: World, now: int, start: int)
    requires Opens(f, w.deploys) == Some(start)
    ensures Judge(f, w, now) == Insufficient <==> Recurs(f, w, start, now)
  {
    OpensIsEarliest(f, w.deploys, start);
    NoneUnknown(f, w.events, start, now);
    if Bound(f, w.events, start, now) > 0 {
      SomeBound(f, w.events, start, now);
    } else {
      forall i | 0 <= i < |w.events| && InWindow(f, w.events[i], start, now) ensures w.events[i].fp != Some(f.hash) {
        if w.events[i].fp == Some(f.hash) { SeenCounts(f, w.events, start, now, i); }
      }
    }
  }

  /** A fix is refuted exactly when its window is long enough, no event in it is of unknown
      fingerprint, and one is of this. */
  lemma RefutedMeans(f: Watched, w: World, now: int)
    ensures Judge(f, w, now) == Insufficient <==> exists start :: Recurs(f, w, start, now)
  {
    match Opens(f, w.deploys) {
      case None =>
        forall start ensures !Recurs(f, w, start, now) { OpensIsEarliest(f, w.deploys, start); }
      case Some(first) =>
        RecursFrom(f, w, now, first);
        forall start | Recurs(f, w, start, now) ensures start == first { OpensIsEarliest(f, w.deploys, start); }
    }
  }

  /** A deploy carries the fix when either commit name starts with the other; a fix without a
      recorded commit is carried by every deploy since the merge. */
  lemma CarriedIff(f: Watched, d: Deploy)
    ensures Matches(f, d) <==>
      && f.started.Some? && f.started.value <= d.at && d.environment == f.environment
      && (f.sha <= d.sha || d.sha <= f.sha)
  {
  }

  /** A turn of the watcher closes only what is confirmed, reopens as chronic what recurred,
      leaves everything else as it was, and never takes the chronic mark away. */
  lemma TurnsAreJustified(f: Watched, w: World, now: int)
    requires f.state.Verifying?
    ensures var f' := Applied(f, Judge(f, w, now));
      && (f'.state.VerifiedClosed? <==> exists start :: Confirms(f, w, start, now))
      && (f'.state.Reopened? <==> exists start :: Recurs(f, w, start, now))
      && (f'.state.Reopened? ==> f'.chronic && exists i ::
            0 <= i < |w.events| && w.events[i].fp == Some(f.hash)
            && f.started.Some? && f.started.value <= w.events[i].ts <= now)
      && (f.chronic ==> f'.chronic)
      && (!f'.state.VerifiedClosed? && !f'.state.Reopened? ==> f' == f)
  {
    SuccessMeans(f, w, now);
    RefutedMeans(f, w, now);
    var f' := Applied(f, Judge(f, w, now));
    if f'.state.Reopened? {
      var start := Opens(f, w.deploys).value;
      OpensIsEarliest(f, w.deploys, start);
      EarliestIs(f, Recent(w.deploys));
      SomeBound(f, w.events, start, now);
    }
  }

  lemma {:induction false} SomeBound(f: Watched, events: seq<Event>, from: int, to: int)
    requires Bound(f, events, from, to) > 0
    ensures exists i :: 0 <= i < |events| && events[i].fp == Some(f.hash) && InWindow(f, events[i], from, to)
  {
    var rest, last := events[..|events| - 1], events[|events| - 1];
    if Bound(f, rest, from, to) > 0 {
      SomeBound(f, rest, from, to);
      var i :| 0 <= i < |rest| && rest[i].fp == Some(f.hash) && InWindow(f, rest[i], from, to);
      assert events[i] == rest[i];
    } else {
      assert events[|events| - 1] == last;
    }
  }
}
