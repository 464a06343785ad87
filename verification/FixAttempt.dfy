/** One fix attempt as the sequence of its effects, any of which can raise or be where the
    process dies, with the handler that writes the fingerprint back. */
module FixAttempt {
  import opened Basics
  import opened Models

  datatype Item = Item(row: Fingerprint, chronic: bool, branch: Option<string>, url: bool)

  /** What becomes of one effect: a call to the outside, or a row write. */
  datatype Fate = Fine | Raises | Dies

  /** What an attempt meets.  `fates` are those of its effects in order, all done after the
      last; the rest is what the fixer, the verifier and the forge answer.  `branch` is the
      first name that can be created, if any. */
  datatype Script = Script(
    fates: seq<Fate>, fixed: bool, files: bool, verdict: Option<bool>, branch: Option<string>, untested: bool)

  datatype Outcome = FixFailed | Blocked | NotDelivered | Delivered | Errored

  datatype Standing = Underway | Returned(outcome: Outcome) | Threw | Died

  /** The row as stored, the effects used up and the row writes that went through. */
  datatype Try = Try(item: Item, used: nat, writes: nat, mode: Standing)

  function FateOf(s: Script, n: nat): Fate { if n < |s.fates| then s.fates[n] else Fine }

  function Halted(r: Try, f: Fate): Try
    requires !f.Fine?
  {
    r.(used := r.used + 1, mode := if f.Raises? then Threw else Died)
  }

  /** Anything outside the row: workspace, fixer, verifier, forge, audit. */
  function Call(r: Try, s: Script): Try {
    if !r.mode.Underway? then r
    else if FateOf(s, r.used).Fine? then r.(used := r.used + 1)
    else Halted(r, FateOf(s, r.used))
  }

  /** A row write happens whole or not at all. */
  function WriteRow(r: Try, s: Script, i: Item): Try {
    if !r.mode.Underway? then r
    else if FateOf(s, r.used).Fine? then r.(item := i, used := r.used + 1, writes := r.writes + 1)
    else Halted(r, FateOf(s, r.used))
  }

  function Return(r: Try, o: Outcome): Try { if r.mode.Underway? then r.(mode := Returned(o)) else r }

  function InState(i: Item, st: WorkState): Item { i.(row := i.row.(state := st)) }

  /** The state a failed attempt puts its fingerprint in. */
  function Fallback(i: Item, retry: bool): Item { InState(i, if retry then AwaitingHuman else Open) }

  /** The binding is stored on the copy the delivery works with, which still has the state it
      had before the attempt and is no longer chronic. */
  function WithBranch(i: Item, branch: string): Item { i.(chronic := false, branch := Some(branch)) }

  function Published(i: Item, branch: string): Item {
    InState(i, AwaitingHuman).(chronic := false, branch := Some(branch), url := true)
  }

  // --- the attempt ---------------------------------------------------------------------------

  /** Failing to create a branch only moves on to the next name; none at all raises. */
  function FindBranch(r: Try, s: Script): Try {
    if !r.mode.Underway? then r
    else if FateOf(s, r.used).Dies? then Halted(r, Dies)
    else if s.branch.None? then Halted(r, Raises)
    else r.(used := r.used + 1)
  }

  /** Commit, open the draft, label it. */
  function OpenDraft(r: Try, s: Script): Try {
    var labelled := Call(Call(Call(r, s), s), s);
    if s.untested then Call(labelled, s) else labelled
  }

  /** From the branch on: bind it, open the draft, store the result, audit twice. */
  function Publish(r: Try, i: Item, s: Script): Try
    requires s.branch.Some?
  {
    var bound := if s.branch == i.branch then r else WriteRow(r, s, WithBranch(i, s.branch.value));
    var stored := WriteRow(OpenDraft(bound, s), s, Published(i, s.branch.value));
    Return(Call(Call(stored, s), s), Delivered)
  }

  function Deliver(r: Try, i: Item, retry: bool, s: Script): Try {
    if !s.files then Return(WriteRow(r, s, Fallback(i, retry)), NotDelivered)
    else
      var branched := FindBranch(Call(r, s), s);
      if branched.mode.Underway? && s.branch.Some? then Publish(branched, i, s) else branched
  }

  /** The verifier's say, when there is one, and its audit entry. */
  function Verify(r: Try, i: Item, retry: bool, s: Script): Try {
    if s.verdict.None? then Deliver(r, i, retry, s)
    else
      var heard := Call(Call(r, s), s);
      if s.verdict.value then Deliver(heard, i, retry, s)
      else
        var stored := WriteRow(heard, s, Fallback(i, retry));
        Return(if i.row.ticket.Some? then Call(Call(stored, s), s) else stored, Blocked)
  }

  /** What the guarded block does: prepare a workspace, run the fixer, verify, deliver. */
  function Guarded(r: Try, i: Item, retry: bool, s: Script): Try {
    var fixer := Call(Call(r, s), s);
    if !s.fixed then Return(Call(WriteRow(fixer, s, Fallback(i, retry)), s), FixFailed)
    else Verify(fixer, i, retry, s)
  }

  /** Any exception of the guarded block is caught, written back and audited. */
  function Handled(r: Try, i: Item, retry: bool, s: Script): Try {
    if r.mode.Threw? then Return(Call(WriteRow(r.(mode := Underway), s, Fallback(i, retry)), s), Errored) else r
  }

  /** The reserving write comes before the guarded block; so does the audit entry of a fix a
      human asked for. */
  function Attempted(i: Item, retry: bool, announced: bool, s: Script): Try {
    var start := Try(i, 0, 0, Underway);
    var reserved := WriteRow(if announced then Call(start, s) else start, s, InState(i, Fixing));
    if reserved.mode.Underway? then Handled(Guarded(reserved, i, retry, s), i, retry, s) else reserved
  }

  // --- what it leaves ---------------------------------------------------------------------------

  /** The stored row while an attempt runs: untouched, then fixing, and then never again. */
  predicate Sound(r: Try, i: Item, retry: bool) {
    && (r.writes == 0 ==> r.item == i)
    && (r.writes == 1 ==> r.item == InState(i, Fixing))
    && (r.writes >= 2 ==>
          || r.item == Fallback(i, retry)
          || (r.item.branch.Some? && r.item == WithBranch(i, r.item.branch.value))
          || (r.item.branch.Some? && r.item == Published(i, r.item.branch.value)))
  }

  lemma PublishSound(r: Try, i: Item, retry: bool, s: Script)
    requires s.branch.Some? && r.mode.Underway? && r.writes == 1 && Sound(r, i, retry)
    ensures var p := Publish(r, i, s);
      && Sound(p, i, retry) && !p.mode.Underway? && p.writes >= 1
      && (p.mode.Returned? ==> p.mode.outcome.Delivered? && p.writes >= 2 && p.item == Published(i, s.branch.value))
  {
  }

  lemma DeliverSound(r: Try, i: Item, retry: bool, s: Script)
    requires r.mode.Underway? && r.writes == 1 && Sound(r, i, retry)
    ensures Ends(Deliver(r, i, retry, s), i, retry, s)
  {
    var branched := FindBranch(Call(r, s), s);
    if s.files && branched.mode.Underway? && s.branch.Some? { PublishSound(branched, i, retry, s); }
  }

  /** Over, soundly; and if it returned, with the row its outcome calls for. */
  predicate Ends(r: Try, i: Item, retry: bool, s: Script) {
    && Sound(r, i, retry) && !r.mode.Underway? && r.writes >= 1
    && (r.mode.Returned? ==>
          && r.writes >= 2
          && (if r.mode.outcome.Delivered? then s.branch.Some? && r.item == Published(i, s.branch.value)
              else r.item == Fallback(i, retry)))
  }

  lemma VerifySound(r: Try, i: Item, retry: bool, s: Script)
    requires r.mode.Underway? && r.writes == 1 && Sound(r, i, retry)
    ensures Ends(Verify(r, i, retry, s), i, retry, s)
  {
    var heard := Call(Call(r, s), s);
    if s.verdict.None? {
      DeliverSound(r, i, retry, s);
    } else if s.verdict.value && heard.mode.Underway? {
      DeliverSound(heard, i, retry, s);
    } else if s.verdict.value {
      HaltedDelivers(heard, i, retry, s);
    }
  }

  lemma HaltedDelivers(r: Try, i: Item, retry: bool, s: Script)
    requires !r.mode.Underway?
    ensures Deliver(r, i, retry, s) == r
  {
  }

  lemma GuardedSound(r: Try, i: Item, retry: bool, s: Script)
    requires r.mode.Underway? && r.writes == 1 && Sound(r, i, retry)
    ensures Ends(Guarded(r, i, retry, s), i, retry, s)
  {
    var fixer := Call(Call(r, s), s);
    if s.fixed && fixer.mode.Underway? {
      VerifySound(fixer, i, retry, s);
    } else if s.fixed {
      HaltedDelivers(fixer, i, retry, s);
    }
  }

  lemma HandledSound(r: Try, i: Item, retry: bool, s: Script)
    requires Ends(r, i, retry, s)
    ensures Ends(Handled(r, i, retry, s), i, retry, s)
  {
  }

  /** Everything an attempt can leave, however it ends. */
  lemma AttemptLeaves(i: Item, retry: bool, announced: bool, s: Script)
    ensures var r := Attempted(i, retry, announced, s);
      && Sound(r, i, retry) && !r.mode.Underway?
      && (r.writes >= 1 ==> Ends(r, i, retry, s))
      && (r.writes == 0 ==> !r.mode.Returned?)
  {
    var start := Try(i, 0, 0, Underway);
    var reserved := WriteRow(if announced then Call(start, s) else start, s, InState(i, Fixing));
    if reserved.mode.Underway? {
      GuardedSound(reserved, i, retry, s);
      HandledSound(Guarded(reserved, i, retry, s), i, retry, s);
    }
  }

  // --- the guarded block as a list of effects --------------------------------------------------

  /** An effect is something outside the row, the search for a branch name, or a row write. */
  datatype Effect = Outside | Search | Row(item: Item)

  function Do(r: Try, e: Effect, s: Script): Try {
    match e
    case Outside => Call(r, s)
    case Search => FindBranch(r, s)
    case Row(i) => WriteRow(r, s, i)
  }

  function RunAll(r: Try, es: seq<Effect>, s: Script): Try
    decreases es
  {
    if es == [] then r else RunAll(Do(r, es[0], s), es[1..], s)
  }

  function BindEffects(i: Item, branch: string): seq<Effect> {
    if i.branch == Some(branch) then [] else [Row(WithBranch(i, branch))]
  }

  function OpenEffects(s: Script): seq<Effect> { [Outside, Outside, Outside] + (if s.untested then [Outside] else []) }

  function PublishEffects(i: Item, branch: string, s: Script): seq<Effect> {
    BindEffects(i, branch) + OpenEffects(s) + [Row(Published(i, branch)), Outside, Outside]
  }

  function DeliverEffects(i: Item, retry: bool, s: Script): seq<Effect> {
    if !s.files then [Row(Fallback(i, retry))]
    else [Outside, Search] + (if s.branch.Some? then PublishEffects(i, s.branch.value, s) else [])
  }

  function VerifyEffects(i: Item, retry: bool, s: Script): seq<Effect> {
    if s.verdict.None? then DeliverEffects(i, retry, s)
    else if s.verdict.value then [Outside, Outside] + DeliverEffects(i, retry, s)
    else [Outside, Outside, Row(Fallback(i, retry))] + (if i.row.ticket.Some? then [Outside, Outside] else [])
  }

  /** What the answers in the script make the guarded block do, in order, if nothing stops it. */
  function Block(i: Item, retry: bool, s: Script): seq<Effect> {
    [Outside, Outside]
    + (if s.fixed then VerifyEffects(i, retry, s) else [Row(Fallback(i, retry)), Outside])
  }

  function OutcomeOf(s: Script): Outcome {
    if !s.fixed then FixFailed
    else if s.verdict == Some(false) then Blocked
    else if !s.files then NotDelivered
    else Delivered
  }

  lemma {:induction false} RunConcat(r: Try, a: seq<Effect>, b: seq<Effect>, s: Script)
    ensures RunAll(r, a + b, s) == RunAll(RunAll(r, a, s), b, s)
    decreases a
  {
    if a == [] {
      assert a + b == b;
    } else {
      assert (a + b)[1..] == a[1..] + b;
      RunConcat(Do(r, a[0], s), a[1..], b, s);
    }
  }

  lemma {:induction false} HaltedRuns(r: Try, es: seq<Effect>, s: Script)
    requires !r.mode.Underway?
    ensures RunAll(r, es, s) == r
    decreases es
  {
    if es != [] { HaltedRuns(r, es[1..], s); }
  }

  lemma RunOne(r: Try, e: Effect, es: seq<Effect>, s: Script)
    ensures RunAll(r, [e] + es, s) == RunAll(Do(r, e, s), es, s)
    ensures RunAll(r, [e], s) == Do(r, e, s)
  {
    assert ([e] + es)[1..] == es && [e][1..] == [];
  }

  lemma RunTwo(r: Try, d: Effect, e: Effect, es: seq<Effect>, s: Script)
    ensures RunAll(r, [d, e] + es, s) == RunAll(Do(Do(r, d, s), e, s), es, s)
    ensures RunAll(r, [d, e], s) == Do(Do(r, d, s), e, s)
  {
    assert [d, e] + es == [d] + ([e] + es) && [d, e] == [d] + [e];
    RunOne(r, d, [e] + es, s);
    RunOne(r, d, [e], s);
    RunOne(Do(r, d, s), e, es, s);
  }

  lemma OpenRuns(r: Try, s: Script)
    ensures RunAll(r, OpenEffects(s), s) == OpenDraft(r, s)
  {
    var last := if s.untested then [Outside] else [];
    assert OpenEffects(s) == [Outside, Outside] + ([Outside] + last);
    RunTwo(r, Outside, Outside, [Outside] + last, s);
    RunOne(Call(Call(r, s), s), Outside, last, s);
    if s.untested { RunOne(Call(Call(Call(r, s), s), s), Outside, [], s); }
  }

  lemma PublishRuns(r: Try, i: Item, s: Script)
    requires s.branch.Some?
    ensures Publish(r, i, s) == Return(RunAll(r, PublishEffects(i, s.branch.value, s), s), Delivered)
  {
    var binding, tail := BindEffects(i, s.branch.value), [Row(Published(i, s.branch.value)), Outside, Outside];
    var bound := RunAll(r, binding, s);
    if binding != [] { RunOne(r, binding[0], [], s); }
    RunConcat(r, binding + OpenEffects(s), tail, s);
    RunConcat(r, binding, OpenEffects(s), s);
    OpenRuns(bound, s);
    var drafted := OpenDraft(bound, s);
    assert tail == [tail[0]] + [Outside, Outside];
    RunOne(drafted, tail[0], [Outside, Outside], s);
    RunTwo(Do(drafted, tail[0], s), Outside, Outside, [], s);
  }

  lemma DeliverRuns(r: Try, i: Item, retry: bool, s: Script)
    ensures Deliver(r, i, retry, s)
         == Return(RunAll(r, DeliverEffects(i, retry, s), s), if s.files then Delivered else NotDelivered)
  {
    if !s.files {
      RunOne(r, Row(Fallback(i, retry)), [], s);
    } else {
      var rest := if s.branch.Some? then PublishEffects(i, s.branch.value, s) else [];
      var branched := FindBranch(Call(r, s), s);
      RunTwo(r, Outside, Search, rest, s);
      if branched.mode.Underway? && s.branch.Some? {
        PublishRuns(branched, i, s);
      } else if !branched.mode.Underway? {
        HaltedRuns(branched, rest, s);
      }
    }
  }

  lemma VerifyRuns(r: Try, i: Item, retry: bool, s: Script)
    requires s.fixed
    ensures Verify(r, i, retry, s) == Return(RunAll(r, VerifyEffects(i, retry, s), s), OutcomeOf(s))
  {
    if s.verdict.None? {
      DeliverRuns(r, i, retry, s);
    } else {
      var heard := Call(Call(r, s), s);
      if s.verdict.value {
        RunTwo(r, Outside, Outside, DeliverEffects(i, retry, s), s);
        DeliverRuns(heard, i, retry, s);
      } else {
        var tail := if i.row.ticket.Some? then [Outside, Outside] else [];
        assert VerifyEffects(i, retry, s) == [Outside, Outside] + ([Row(Fallback(i, retry))] + tail);
        RunTwo(r, Outside, Outside, [Row(Fallback(i, retry))] + tail, s);
        RunOne(heard, Row(Fallback(i, retry)), tail, s);
        if i.row.ticket.Some? { RunTwo(WriteRow(heard, s, Fallback(i, retry)), Outside, Outside, [], s); }
      }
    }
  }

  /** The guarded block is its list of effects, run until one stops it. */
  lemma GuardedRuns(r: Try, i: Item, retry: bool, s: Script)
    ensures Guarded(r, i, retry, s) == Return(RunAll(r, Block(i, retry, s), s), OutcomeOf(s))
  {
    var fixer := Call(Call(r, s), s);
    if s.fixed {
      RunTwo(r, Outside, Outside, VerifyEffects(i, retry, s), s);
      VerifyRuns(fixer, i, retry, s);
    } else {
      RunTwo(r, Outside, Outside, [Row(Fallback(i, retry)), Outside], s);
      RunTwo(fixer, Row(Fallback(i, retry)), Outside, [], s);
    }
  }

  // --- when an attempt raises, and when it leaves its fingerprint fixing ---------------------------

  /** Whether effect `e`, number `n`, ends the block.  The search passes over names that cannot
      be created, and ends it by a death or for want of a name. */
  predicate Stops(e: Effect, s: Script, n: nat) {
    if e.Search? then FateOf(s, n).Dies? || s.branch.None? else !FateOf(s, n).Fine?
  }

  /** How many effects of the list, the first of which is number `n`, come before one that
      ends it: all of them if none does. */
  function Passed(es: seq<Effect>, s: Script, n: nat): (k: nat)
    ensures k <= |es| && (k < |es| ==> Stops(es[k], s, n + k))
    ensures forall j :: 0 <= j < k ==> !Stops(es[j], s, n + j)
  {
    if es == [] || Stops(es[0], s, n) then 0 else 1 + Passed(es[1..], s, n + 1)
  }

  /** How many effects come before the first row write. */
  function BeforeWrite(es: seq<Effect>): (k: nat)
    ensures k <= |es| && (k < |es| ==> es[k].Row?)
    ensures forall j :: 0 <= j < k ==> !es[j].Row?
  {
    if es == [] || es[0].Row? then 0 else 1 + BeforeWrite(es[1..])
  }

  lemma DoEnds(r: Try, e: Effect, s: Script)
    requires r.mode.Underway?
    ensures var q := Do(r, e, s);
      && q.used == r.used + 1
      && (Stops(e, s, r.used) ==> q.writes == r.writes && q.mode == if FateOf(s, r.used).Dies? then Died else Threw)
      && (!Stops(e, s, r.used) ==> q.mode.Underway? && q.writes == r.writes + if e.Row? then 1 else 0)
  {
  }

  /** How a list ends, told from the script. */
  lemma {:induction false} RunEnds(r: Try, es: seq<Effect>, s: Script)
    requires r.mode.Underway?
    ensures var q, k := RunAll(r, es, s), Passed(es, s, r.used);
      && (k == |es| ==> q.mode.Underway?)
      && (k < |es| ==> q.used == r.used + k + 1 && q.mode == if FateOf(s, r.used + k).Dies? then Died else Threw)
    decreases es
  {
    if es != [] {
      var next := Do(r, es[0], s);
      DoEnds(r, es[0], s);
      if Stops(es[0], s, r.used) {
        HaltedRuns(next, es[1..], s);
      } else {
        RunEnds(next, es[1..], s);
      }
    }
  }

  lemma {:induction false} RunWrites(r: Try, es: seq<Effect>, s: Script)
    requires r.mode.Underway?
    ensures var q := RunAll(r, es, s);
      q.writes >= r.writes && (q.writes == r.writes <==> Passed(es, s, r.used) <= BeforeWrite(es))
    decreases es
  {
    if es != [] {
      var next := Do(r, es[0], s);
      DoEnds(r, es[0], s);
      if Stops(es[0], s, r.used) {
        HaltedRuns(next, es[1..], s);
      } else {
        RunWrites(next, es[1..], s);
      }
    }
  }

  /** The announcement, when there is one, and the reserving write are effects 0 and 1, or the
      write alone is effect 0; the block starts behind them. */
  function Reserving(announced: bool): nat { if announced then 1 else 0 }

  predicate Reserves(announced: bool, s: Script) {
    (announced ==> FateOf(s, 0).Fine?) && FateOf(s, Reserving(announced)).Fine?
  }

  /** The position in the block of the effect that ends it, or the block's length. */
  function StopOf(i: Item, retry: bool, announced: bool, s: Script): nat {
    Passed(Block(i, retry, s), s, Reserving(announced) + 1)
  }

  /** The handler's effects come right behind the one that raised: its row write and its audit
      entry. */
  predicate HandlerRaises(s: Script, n: nat) {
    FateOf(s, n).Raises? || (FateOf(s, n).Fine? && FateOf(s, n + 1).Raises?)
  }

  /** Told from the fates and answers alone: an exception comes out of the attempt. */
  predicate RaisesOut(i: Item, retry: bool, announced: bool, s: Script) {
    var a, k := Reserving(announced), StopOf(i, retry, announced, s);
    || (announced && FateOf(s, 0).Raises?)
    || ((announced ==> FateOf(s, 0).Fine?) && FateOf(s, a).Raises?)
    || (Reserves(announced, s) && k < |Block(i, retry, s)|
        && !FateOf(s, a + 1 + k).Dies? && HandlerRaises(s, a + 2 + k))
  }

  /** Told from the fates and answers alone: the attempt reserves, and stops before its next
      row write by a death, or by an exception whose handler cannot write. */
  predicate CutShort(i: Item, retry: bool, announced: bool, s: Script) {
    var a, es, k := Reserving(announced), Block(i, retry, s), StopOf(i, retry, announced, s);
    && Reserves(announced, s) && k < |es| && k <= BeforeWrite(es)
    && (FateOf(s, a + 1 + k).Dies? || !FateOf(s, a + 2 + k).Fine?)
  }

  /** How a run of the block ends, once it has returned if it could. */
  predicate EndsAt(g: Try, n: nat, es: seq<Effect>, k: nat, s: Script) {
    && (k == |es| ==> g.mode.Returned?)
    && (k < |es| ==> g.used == n + k + 1 && g.mode == if FateOf(s, n + k).Dies? then Died else Threw)
    && g.writes >= 1
    && (g.writes == 1 <==> k <= BeforeWrite(es))
  }

  lemma ReturnEnds(r: Try, es: seq<Effect>, s: Script, o: Outcome)
    requires r.mode.Underway? && r.writes == 1
    ensures EndsAt(Return(RunAll(r, es, s), o), r.used, es, Passed(es, s, r.used), s)
  {
    RunEnds(r, es, s);
    RunWrites(r, es, s);
  }

  lemma GuardedEnds(r: Try, i: Item, retry: bool, s: Script)
    requires r.mode.Underway? && r.writes == 1
    ensures var es := Block(i, retry, s); EndsAt(Guarded(r, i, retry, s), r.used, es, Passed(es, s, r.used), s)
  {
    GuardedRuns(r, i, retry, s);
    ReturnEnds(r, Block(i, retry, s), s, OutcomeOf(s));
  }

  lemma HandlerEnds(g: Try, i: Item, retry: bool, s: Script)
    requires !g.mode.Underway?
    ensures var r := Handled(g, i, retry, s);
      && (r.mode.Threw? <==> g.mode.Threw? && HandlerRaises(s, g.used))
      && r.writes == g.writes + if g.mode.Threw? && FateOf(s, g.used).Fine? then 1 else 0
  {
  }

  lemma Reserved(i: Item, retry: bool, announced: bool, s: Script)
    requires Reserves(announced, s)
    ensures Attempted(i, retry, announced, s)
         == Handled(Guarded(Try(InState(i, Fixing), Reserving(announced) + 1, 1, Underway), i, retry, s), i, retry, s)
  {
  }

  lemma NotReserved(i: Item, retry: bool, announced: bool, s: Script)
    requires !Reserves(announced, s)
    ensures var r := Attempted(i, retry, announced, s);
      && r.writes == 0
      && (r.mode.Threw? <==> if announced && !FateOf(s, 0).Fine? then FateOf(s, 0).Raises?
                             else FateOf(s, Reserving(announced)).Raises?)
  {
  }

  /** How an attempt ends whose block `es` starts with effect `n` and is stopped at `k`. */
  predicate HandledAt(r: Try, n: nat, es: seq<Effect>, k: nat, s: Script) {
    && (k == |es| ==> r.mode.Returned?)
    && (r.mode.Threw? <==> k < |es| && !FateOf(s, n + k).Dies? && HandlerRaises(s, n + k + 1))
    && (r.writes == 1 <==>
          k <= BeforeWrite(es) && (k < |es| ==> FateOf(s, n + k).Dies? || !FateOf(s, n + k + 1).Fine?))
  }

  lemma HandledEnds(g: Try, i: Item, retry: bool, s: Script, n: nat, es: seq<Effect>, k: nat)
    requires k <= |es| && EndsAt(g, n, es, k, s)
    ensures HandledAt(Handled(g, i, retry, s), n, es, k, s)
  {
    HandlerEnds(g, i, retry, s);
  }

  lemma ReservedEnds(i: Item, retry: bool, s: Script, start: Try, es: seq<Effect>)
    requires start.mode.Underway? && start.writes == 1 && es == Block(i, retry, s)
    ensures HandledAt(
      Handled(Guarded(start, i, retry, s), i, retry, s), start.used, es, Passed(es, s, start.used), s)
  {
    GuardedEnds(start, i, retry, s);
    HandledEnds(Guarded(start, i, retry, s), i, retry, s, start.used, es, Passed(es, s, start.used));
  }

  /** An attempt that reserved: how it ends, told from where its block stops. */
  lemma AttemptEnds(i: Item, retry: bool, announced: bool, s: Script)
    requires Reserves(announced, s)
    ensures HandledAt(Attempted(i, retry, announced, s), Reserving(announced) + 1, Block(i, retry, s),
      StopOf(i, retry, announced, s), s)
  {
    var es := Block(i, retry, s);
    Reserved(i, retry, announced, s);
    ReservedEnds(i, retry, s, Try(InState(i, Fixing), Reserving(announced) + 1, 1, Underway), es);
  }

  /** An exception comes out of an attempt exactly when the announcement or the reserving
      write raises, or when the block raises and then its handler's row write or audit does. */
  lemma RaisesIff(i: Item, retry: bool, announced: bool, s: Script)
    ensures Attempted(i, retry, announced, s).mode.Threw? <==> RaisesOut(i, retry, announced, s)
  {
    if Reserves(announced, s) {
      AttemptEnds(i, retry, announced, s);
    } else {
      NotReserved(i, retry, announced, s);
    }
  }

  lemma CutShortIff(i: Item, retry: bool, announced: bool, s: Script)
    ensures Attempted(i, retry, announced, s).writes == 1 <==> CutShort(i, retry, announced, s)
  {
    if Reserves(announced, s) {
      AttemptEnds(i, retry, announced, s);
      ReturnWrites(i, retry, announced, s);
    } else {
      NotReserved(i, retry, announced, s);
    }
  }

  lemma ReturnWrites(i: Item, retry: bool, announced: bool, s: Script)
    ensures var r := Attempted(i, retry, announced, s); r.mode.Returned? ==> r.writes >= 2
  {
    AttemptLeaves(i, retry, announced, s);
  }

  lemma FixingIsOneWrite(i: Item, retry: bool, announced: bool, s: Script)
    requires !i.row.state.Fixing?
    ensures var r := Attempted(i, retry, announced, s);
      && (r.item.row.state.Fixing? <==> r.writes == 1)
      && (r.writes == 1 ==> r.mode.Threw? || r.mode.Died?)
      && (r.mode.Returned? ==> !r.item.row.state.Fixing?)
  {
    AttemptLeaves(i, retry, announced, s);
  }

  /** A fingerprint that was not fixing is left fixing exactly when the attempt is cut short,
      that is when its reserving write is its only one; an attempt that returns never is. */
  lemma LeftFixingIff(i: Item, retry: bool, announced: bool, s: Script)
    requires !i.row.state.Fixing?
    ensures var r := Attempted(i, retry, announced, s);
      && (r.item.row.state.Fixing? <==> CutShort(i, retry, announced, s))
      && (r.item.row.state.Fixing? <==> r.writes == 1)
      && (r.writes == 1 ==> r.mode.Threw? || r.mode.Died?)
      && (r.mode.Returned? ==> !r.item.row.state.Fixing?)
  {
    FixingIsOneWrite(i, retry, announced, s);
    CutShortIff(i, retry, announced, s);
  }

  /** What a returned attempt leaves: a delivery hands the proposal to a human, everything
      else puts the fingerprint back as it was but for its state. */
  lemma ReturnLeaves(i: Item, retry: bool, announced: bool, s: Script)
    ensures var r := Attempted(i, retry, announced, s);
      r.mode.Returned? ==>
        if r.mode.outcome.Delivered? then s.branch.Some? && r.item == Published(i, s.branch.value)
        else r.item == Fallback(i, retry)
  {
    AttemptLeaves(i, retry, announced, s);
  }

  /** An attempt whose block nothing stops returns what its answers call for: failed without a fix,
      blocked by the verifier, not delivered without files, and delivered otherwise. */
  lemma UndisturbedReturns(i: Item, retry: bool, announced: bool, s: Script)
    requires Reserves(announced, s) && StopOf(i, retry, announced, s) == |Block(i, retry, s)|
    ensures var r := Attempted(i, retry, announced, s);
      && r.mode == Returned(if !s.fixed then FixFailed
                            else if s.verdict == Some(false) then Outcome.Blocked
                            else if !s.files then NotDelivered else Outcome.Delivered)
      && r.item == (if r.mode.outcome.Delivered? && s.branch.Some? then Published(i, s.branch.value)
                    else i.(row := i.row.(state := if retry then AwaitingHuman else Open)))
  {
    var start := Try(InState(i, Fixing), Reserving(announced) + 1, 1, Underway);
    Reserved(i, retry, announced, s);
    GuardedRuns(start, i, retry, s);
    RunEnds(start, Block(i, retry, s), s);
    ReturnLeaves(i, retry, announced, s);
  }

  /** Both ways to be left fixing do happen: a death while the fixer works, and a workspace
      that cannot be prepared when the handler's own write fails too, so that the call raises. */
  lemma CanBeLeftFixing(i: Item)
    requires !i.row.state.Fixing?
    ensures var died := Attempted(i, false, false, Script([Fine, Fine, Dies], true, true, None, None, false));
      died.mode.Died? && died.item.row.state.Fixing?
    ensures var raised := Attempted(i, false, false, Script([Fine, Raises, Raises], true, true, None, None, false));
      raised.mode.Threw? && raised.item.row.state.Fixing?
  {
    var s := Script([Fine, Fine, Dies], true, true, None, None, false);
    assert Call(Call(Try(InState(i, Fixing), 1, 1, Underway), s), s).mode.Died?;
    var s' := Script([Fine, Raises, Raises], true, true, None, None, false);
    assert Call(Call(Try(InState(i, Fixing), 1, 1, Underway), s'), s') == Try(InState(i, Fixing), 2, 1, Threw);
  }

  /** An exception can also leave the row as it was, put back, or bound to a branch: when the
      announcement raises, when the handler's audit entry does, and when the commit and then
      the handler's write do. */
  lemma CanRaiseOtherwise(i: Item)
    requires i.branch.None?
    ensures var r := Attempted(i, false, true, Script([Raises], true, true, None, None, false));
      r.mode.Threw? && r.item == i
    ensures var r := Attempted(i, false, false, Script([Fine, Raises, Fine, Raises], true, true, None, None, false));
      r.mode.Threw? && r.item == Fallback(i, false)
    ensures var r := Attempted(i, false, false, Script(SixFineTwoRaise(), true, true, None, Some("b"), false));
      r.mode.Threw? && r.item == WithBranch(i, "b")
  {
    PutBack(i, Script([Fine, Raises, Fine, Raises], true, true, None, None, false));
    LeftBound(i, Script(SixFineTwoRaise(), true, true, None, Some("b"), false));
  }

  function SixFineTwoRaise(): seq<Fate> { [Fine, Fine, Fine, Fine, Fine, Fine, Raises, Raises] }

  lemma PutBack(i: Item, s: Script)
    requires s == Script([Fine, Raises, Fine, Raises], true, true, None, None, false)
    ensures var r := Attempted(i, false, false, s); r.mode.Threw? && r.item == Fallback(i, false)
  {
    var g := Guarded(Try(InState(i, Fixing), 1, 1, Underway), i, false, s);
    assert Call(Call(Try(InState(i, Fixing), 1, 1, Underway), s), s) == Try(InState(i, Fixing), 2, 1, Threw);
    assert g == Try(InState(i, Fixing), 2, 1, Threw);
  }

  lemma LeftBound(i: Item, s: Script)
    requires i.branch.None? && s == Script(SixFineTwoRaise(), true, true, None, Some("b"), false)
    ensures var r := Attempted(i, false, false, s); r.mode.Threw? && r.item == WithBranch(i, "b")
  {
    var r := Try(InState(i, Fixing), 1, 1, Underway);
    var branched := Try(InState(i, Fixing), 5, 1, Underway);
    assert FindBranch(Call(Call(Call(r, s), s), s), s) == branched;
    var bound := WriteRow(branched, s, WithBranch(i, "b"));
    assert OpenDraft(bound, s) == Try(WithBranch(i, "b"), 7, 2, Threw);
    assert Publish(branched, i, s) == Try(WithBranch(i, "b"), 7, 2, Threw);
    assert Guarded(r, i, false, s) == Try(WithBranch(i, "b"), 7, 2, Threw);
  }
}
