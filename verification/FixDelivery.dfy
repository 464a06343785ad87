/** Publishing a proven patch: one branch name per fingerprint, found again on every retry. */
module FixDelivery {
  import opened Basics
  import opened Text

  const MAX_BRANCH_ATTEMPTS: nat := 3

  function Stem(hash: string): string {
    "wakey/fix-" + (if |hash| < 8 then hash else hash[..8])
  }

  function ProposalBranch(hash: string, attempt: nat): string {
    if attempt == 1 then Stem(hash) else Stem(hash) + "-" + Decimal(attempt)
  }

  function BoundAttempt(branch: Option<string>, hash: string): nat {
    var stem := Stem(hash);
    if branch.None? || branch.value == "" || branch.value == stem then 1
    else if stem + "-" <= branch.value && AllDigits(branch.value[|stem| + 1..]) then Number(branch.value[|stem| + 1..])
    else 1
  }

  /** The stored name says which attempt it was, for every attempt. */
  lemma BoundIsInverse(hash: string, n: nat)
    ensures BoundAttempt(Some(ProposalBranch(hash, n)), hash) == n
  {
    NumberOfDecimal(n);
    if n != 1 {
      assert ProposalBranch(hash, n)[|Stem(hash)| + 1..] == Decimal(n);
    }
  }

  /** So different attempts have different names. */
  lemma BranchesDiffer(hash: string, m: nat, n: nat)
    requires ProposalBranch(hash, m) == ProposalBranch(hash, n)
    ensures m == n
  {
    BoundIsInverse(hash, m);
    BoundIsInverse(hash, n);
  }

  /** The first attempt, from `start`, whose branch can be created. */
  function FirstFree(hash: string, failing: set<string>, start: nat): (r: Option<nat>)
    decreases MAX_BRANCH_ATTEMPTS + 1 - start
  {
    if start > MAX_BRANCH_ATTEMPTS then None
    else if ProposalBranch(hash, start) !in failing then Some(start)
    else FirstFree(hash, failing, start + 1)
  }

  // --- one delivery --------------------------------------------------------------------------

  /** Where a delivery ends: before anything, storing the binding, committing, opening the
      draft (which may have landed), labelling, storing the result, auditing, or not at all. */
  datatype Stop = AtBase | AtBinding | AtCommit | AtOpen(landed: bool) | AtLabel | AtSave | AtAudit | Nowhere

  /** The executor stores the fingerprint it started with when a delivery raises; when the
      process dies it cannot. */
  datatype Attempt = Attempt(stop: Stop, died: bool)

  datatype State = State(branch: Option<string>, drafts: set<string>)

  predicate Opens(stop: Stop) {
    stop == AtOpen(true) || stop.AtLabel? || stop.AtSave? || stop.AtAudit? || stop.Nowhere?
  }

  function Delivered(s: State, hash: string, failing: set<string>, a: Attempt): State {
    var free := FirstFree(hash, failing, BoundAttempt(s.branch, hash));
    if a.stop.AtBase? || free.None? then s
    else
      var name := ProposalBranch(hash, free.value);
      var drafts := if Opens(a.stop) then s.drafts + {name} else s.drafts;
      var branch :=
        if a.stop.Nowhere? then Some(name)
        else if a.died && !a.stop.AtBinding? then Some(name)
        else s.branch;
      State(branch, drafts)
  }

  class DraftForge {
    var failing: set<string>   // names that cannot be created just now, whoever holds them
    var branches: set<string>
    var drafts: set<string>

    constructor (failing: set<string>)
      ensures this.failing == failing && branches == {} && drafts == {}
    {
      this.failing, branches, drafts := failing, {}, {};
    }

    /** Fails on a name that cannot be created; creating our own again succeeds. */
    method CreateBranch(name: string) returns (ok: bool)
      modifies this`branches
      ensures ok == (name !in failing)
      ensures branches == if ok then old(branches) + {name} else old(branches)
    {
      ok := name !in failing;
      if ok { branches := branches + {name}; }
    }

    /** One draft per head branch. */
    method OpenDraft(name: string)
      modifies this`drafts
      ensures drafts == old(drafts) + {name}
    {
      drafts := drafts + {name};
    }
  }

  class FixProposalDelivery {
    const hash: string
    const forge: DraftForge
    var branch: Option<string>

    constructor (hash: string, forge: DraftForge)
      ensures this.hash == hash && this.forge == forge && branch == None
    {
      this.hash, this.forge, branch := hash, forge, None;
    }

    function Now(): State
      reads this, forge
    {
      State(branch, forge.drafts)
    }

    /** Suffixes are tried in turn, from the one already bound. */
    method EnsureBranch(bind: bool) returns (name: Option<string>)
      modifies this, forge`branches
      ensures var free := FirstFree(hash, forge.failing, BoundAttempt(old(branch), hash));
        && (free.None? ==> name.None? && branch == old(branch))
        && (free.Some? ==> name == Some(ProposalBranch(hash, free.value)))
        && (free.Some? ==> branch == if bind then name else old(branch))
    {
      var start := BoundAttempt(branch, hash);
      var attempt := start;
      while attempt <= MAX_BRANCH_ATTEMPTS
        invariant branch == old(branch)
        invariant FirstFree(hash, forge.failing, attempt) == FirstFree(hash, forge.failing, start)
      {
        var candidate := ProposalBranch(hash, attempt);
        var ok := forge.CreateBranch(candidate);
        if ok {
          if bind && branch != Some(candidate) { branch := Some(candidate); }
          return Some(candidate);
        }
        attempt := attempt + 1;
      }
      name := None;
    }

    /** One delivery with the executor around it. */
    method Deliver(a: Attempt) returns (delivered: bool)
      modifies this, forge`branches, forge`drafts
      ensures Now() == Delivered(old(Now()), hash, forge.failing, a)
    {
      var before := branch;
      delivered := false;
      if a.stop.AtBase? { return; }
      var name := EnsureBranch(!a.stop.AtBinding?);
      if name.Some? {
        if a.stop.AtOpen? && a.stop.landed { forge.OpenDraft(name.value); }
        if a.stop.AtLabel? || a.stop.AtSave? || a.stop.AtAudit? || a.stop.Nowhere? {
          forge.OpenDraft(name.value);
        }
        if a.stop.Nowhere? {
          branch, delivered := name, true;
          return;
        }
      }
      if !a.died { branch := before; }
    }
  }

  // --- any number of them --------------------------------------------------------------------------

  /** One delivery of a run, with the names that cannot be created while it runs. */
  datatype Try = Try(failing: set<string>, attempt: Attempt)

  const FRESH := State(None, {})

  function Run(hash: string, tries: seq<Try>): State {
    if tries == [] then FRESH
    else
      var last := tries[|tries| - 1];
      Delivered(Run(hash, tries[..|tries| - 1]), hash, last.failing, last.attempt)
  }

  /** What is stored is a name of this fingerprint, and drafts are on such names. */
  predicate Named(s: State, hash: string) {
    && (s.branch.Some? ==> exists n :: 1 <= n <= MAX_BRANCH_ATTEMPTS && s.branch.value == ProposalBranch(hash, n))
    && (forall d | d in s.drafts :: exists n :: 1 <= n <= MAX_BRANCH_ATTEMPTS && d == ProposalBranch(hash, n))
  }

  lemma {:induction false} FirstFreeIs(hash: string, failing: set<string>, start: nat)
    ensures match FirstFree(hash, failing, start)
      case None => forall m :: start <= m <= MAX_BRANCH_ATTEMPTS ==> ProposalBranch(hash, m) in failing
      case Some(n) =>
        && start <= n <= MAX_BRANCH_ATTEMPTS && ProposalBranch(hash, n) !in failing
        && forall m :: start <= m < n ==> ProposalBranch(hash, m) in failing
    decreases MAX_BRANCH_ATTEMPTS + 1 - start
  {
    if start <= MAX_BRANCH_ATTEMPTS && ProposalBranch(hash, start) in failing { FirstFreeIs(hash, failing, start + 1); }
  }

  lemma BoundIsNamed(s: State, hash: string)
    requires Named(s, hash)
    ensures 1 <= BoundAttempt(s.branch, hash) <= MAX_BRANCH_ATTEMPTS
    ensures s.branch.Some? ==> s.branch.value == ProposalBranch(hash, BoundAttempt(s.branch, hash))
  {
    if s.branch.Some? {
      var n :| 1 <= n <= MAX_BRANCH_ATTEMPTS && s.branch.value == ProposalBranch(hash, n);
      BoundIsInverse(hash, n);
    }
  }

  lemma StepNamed(s: State, hash: string, failing: set<string>, a: Attempt)
    requires Named(s, hash)
    ensures Named(Delivered(s, hash, failing, a), hash)
  {
    BoundIsNamed(s, hash);
    FirstFreeIs(hash, failing, BoundAttempt(s.branch, hash));
  }

  lemma {:induction false} RunNamed(hash: string, tries: seq<Try>)
    ensures Named(Run(hash, tries), hash)
  {
    if tries != [] {
      var last := tries[|tries| - 1];
      RunNamed(hash, tries[..|tries| - 1]);
      StepNamed(Run(hash, tries[..|tries| - 1]), hash, last.failing, last.attempt);
    }
  }

  // --- when a second draft opens ---------------------------------------------------------------------

  /** With a draft on name `n`, the search from the stored attempt ends elsewhere: an earlier
      name can be created now, or name `n` cannot, or lies behind the stored one, and a later
      name can. */
  predicate Strays(hash: string, failing: set<string>, bound: nat, n: nat) {
    || (exists m :: bound <= m < n && ProposalBranch(hash, m) !in failing)
    || ((n < bound || ProposalBranch(hash, n) in failing)
        && exists m :: n < m <= MAX_BRANCH_ATTEMPTS && bound <= m && ProposalBranch(hash, m) !in failing)
  }

  /** The delivery opens a draft beside the one there is.  All of it can be told before the
      call: the draft, what is stored, and which names can be created. */
  ghost predicate Splits(s: State, hash: string, t: Try) {
    Opens(t.attempt.stop) && exists n ::
      1 <= n <= MAX_BRANCH_ATTEMPTS && s.drafts == {ProposalBranch(hash, n)}
      && Strays(hash, t.failing, BoundAttempt(s.branch, hash), n)
  }

  lemma StraysIff(hash: string, failing: set<string>, bound: nat, n: nat)
    requires 1 <= n <= MAX_BRANCH_ATTEMPTS
    ensures Strays(hash, failing, bound, n)
      <==> FirstFree(hash, failing, bound).Some? && FirstFree(hash, failing, bound).value != n
  {
    FirstFreeIs(hash, failing, bound);
  }

  /** From one draft, a delivery leads to two exactly when it splits. */
  lemma SecondDraftIff(s: State, hash: string, n: nat, t: Try)
    requires 1 <= n <= MAX_BRANCH_ATTEMPTS && s.drafts == {ProposalBranch(hash, n)}
    ensures |Delivered(s, hash, t.failing, t.attempt).drafts| == 2
      <==> Opens(t.attempt.stop) && Strays(hash, t.failing, BoundAttempt(s.branch, hash), n)
    ensures !Strays(hash, t.failing, BoundAttempt(s.branch, hash), n) ==>
      Delivered(s, hash, t.failing, t.attempt).drafts == s.drafts
    ensures Splits(s, hash, t) <==> Opens(t.attempt.stop) && Strays(hash, t.failing, BoundAttempt(s.branch, hash), n)
  {
    var free := FirstFree(hash, t.failing, BoundAttempt(s.branch, hash));
    StraysIff(hash, t.failing, BoundAttempt(s.branch, hash), n);
    if free.Some? {
      FirstFreeIs(hash, t.failing, BoundAttempt(s.branch, hash));
      if ProposalBranch(hash, free.value) == ProposalBranch(hash, n) { BranchesDiffer(hash, free.value, n); }
      if free.value != n { assert |{ProposalBranch(hash, n)} + {ProposalBranch(hash, free.value)}| == 2; }
    }
    forall k | s.drafts == {ProposalBranch(hash, k)} ensures k == n {
      assert ProposalBranch(hash, n) in {ProposalBranch(hash, k)};
      BranchesDiffer(hash, n, k);
    }
  }

  lemma DraftsStay(s: State, hash: string, t: Try)
    ensures s.drafts <= Delivered(s, hash, t.failing, t.attempt).drafts
  {
  }

  lemma StepSplits(s: State, hash: string, t: Try)
    requires Named(s, hash)
    ensures var s' := Delivered(s, hash, t.failing, t.attempt);
      |s'.drafts| <= 1 <==> |s.drafts| <= 1 && !Splits(s, hash, t)
  {
    var s' := Delivered(s, hash, t.failing, t.attempt);
    DraftsStay(s, hash, t);
    if |s.drafts| == 1 {
      var d :| d in s.drafts;
      OnlyOne(s.drafts, d);
      var n :| 1 <= n <= MAX_BRANCH_ATTEMPTS && d == ProposalBranch(hash, n);
      SecondDraftIff(s, hash, n, t);
    } else if s.drafts == {} {
      assert forall n :: s.drafts != {ProposalBranch(hash, n)} by {
        assert forall n :: ProposalBranch(hash, n) in {ProposalBranch(hash, n)};
      }
      if s'.drafts != {} {
        var d :| d in s'.drafts;
        assert s'.drafts == {d};
      }
    } else {
      assert s'.drafts == s.drafts + (s'.drafts - s.drafts);
    }
  }

  lemma OnlyOne(s: set<string>, d: string)
    requires |s| == 1 && d in s
    ensures s == {d}
  {
    assert |s - {d}| == 0;
    assert s == {d} + (s - {d});
  }

  /** Delivery `k` of a run splits. */
  ghost predicate SplitsAt(hash: string, tries: seq<Try>, k: nat)
    requires k < |tries|
  {
    Splits(Run(hash, tries[..k]), hash, tries[k])
  }

  lemma SplitsBefore(hash: string, tries: seq<Try>, k: nat)
    requires k < |tries| - 1
    ensures SplitsAt(hash, tries, k) <==> SplitsAt(hash, tries[..|tries| - 1], k)
  {
    assert tries[..|tries| - 1][..k] == tries[..k];
  }

  /** Over any run, with other names failing each time, there is at most one draft exactly
      when no delivery of the run split. */
  lemma {:induction false} OneDraftIff(hash: string, tries: seq<Try>)
    ensures |Run(hash, tries).drafts| <= 1 <==> forall k :: 0 <= k < |tries| ==> !SplitsAt(hash, tries, k)
  {
    if tries != [] {
      var rest, n := tries[..|tries| - 1], |tries| - 1;
      OneDraftIff(hash, rest);
      RunNamed(hash, rest);
      StepSplits(Run(hash, rest), hash, tries[n]);
      forall k | 0 <= k < n ensures SplitsAt(hash, tries, k) <==> SplitsAt(hash, rest, k) {
        SplitsBefore(hash, tries, k);
      }
      assert SplitsAt(hash, tries, n) <==> Splits(Run(hash, rest), hash, tries[n]);
    }
  }

  // --- failing only on foreign names ------------------------------------------------------------------

  /** The one name every delivery of this fingerprint then ends up with. */
  function Name(hash: string, foreign: set<string>): Option<string> {
    var free := FirstFree(hash, foreign, 1);
    if free.Some? then Some(ProposalBranch(hash, free.value)) else None
  }

  predicate Bound(s: State, hash: string, foreign: set<string>) {
    && (s.branch.None? || s.branch == Name(hash, foreign))
    && (forall d | d in s.drafts :: Name(hash, foreign) == Some(d))
  }

  predicate Fixed(tries: seq<Try>, foreign: set<string>) {
    forall k :: 0 <= k < |tries| ==> tries[k].failing == foreign
  }

  /** From the stored name, or from none, the search ends at the same name. */
  lemma SameName(s: State, hash: string, foreign: set<string>)
    requires Bound(s, hash, foreign)
    ensures FirstFree(hash, foreign, BoundAttempt(s.branch, hash)) == FirstFree(hash, foreign, 1)
  {
    FirstFreeIs(hash, foreign, 1);
    if s.branch.Some? {
      var n := FirstFree(hash, foreign, 1).value;
      BoundIsInverse(hash, n);
      FirstFreeIs(hash, foreign, n);
    }
  }

  lemma {:induction false} RunStaysBound(hash: string, foreign: set<string>, tries: seq<Try>)
    requires Fixed(tries, foreign)
    ensures Bound(Run(hash, tries), hash, foreign)
  {
    if tries != [] {
      RunStaysBound(hash, foreign, tries[..|tries| - 1]);
      SameName(Run(hash, tries[..|tries| - 1]), hash, foreign);
    }
  }

  /** However often a delivery fails, wherever it fails, and whether or not the process dies,
      at most one draft is ever opened, as long as branches fail only on foreign names. */
  lemma AtMostOneDraft(hash: string, foreign: set<string>, tries: seq<Try>)
    requires Fixed(tries, foreign)
    ensures var s := Run(hash, tries);
      |s.drafts| <= 1 && forall d | d in s.drafts :: s.branch.Some? ==> s.branch == Some(d)
  {
    RunStaysBound(hash, foreign, tries);
    var s := Run(hash, tries);
    if s.drafts != {} {
      var d :| d in s.drafts;
      assert s.drafts == {d};
    }
  }

  const WHOLE := Attempt(Nowhere, false)

  /** A delivery that goes through after any failures binds the only draft there is, unless
      every name was foreign. */
  lemma DeliveryResumes(hash: string, foreign: set<string>, tries: seq<Try>)
    requires Fixed(tries, foreign)
    ensures var s := Run(hash, tries + [Try(foreign, WHOLE)]);
      if Name(hash, foreign).None? then s.drafts == {}
      else s.branch == Name(hash, foreign) && s.drafts == {s.branch.value}
  {
    var all := tries + [Try(foreign, WHOLE)];
    RunStaysBound(hash, foreign, tries);
    RunStaysBound(hash, foreign, all);
    SameName(Run(hash, tries), hash, foreign);
    assert all[..|tries|] == tries;
    assert Name(hash, foreign).None? ==> Run(hash, tries).drafts == {};
  }

  lemma NamesAre(hash: string)
    ensures var stem := "wakey/fix-" + (if |hash| < 8 then hash else hash[..8]);
      && ProposalBranch(hash, 1) == stem && ProposalBranch(hash, 2) == stem + "-2"
      && ProposalBranch(hash, 3) == stem + "-3"
  {
    assert Decimal(2) == "2" && Decimal(3) == "3";
  }

  lemma FirstOfThree(hash: string, foreign: set<string>)
    ensures FirstFree(hash, foreign, 1) ==
      if ProposalBranch(hash, 1) !in foreign then Some(1)
      else if ProposalBranch(hash, 2) !in foreign then Some(2)
      else if ProposalBranch(hash, 3) !in foreign then Some(3)
      else None
  {
    assert FirstFree(hash, foreign, 4) == None;
    assert FirstFree(hash, foreign, 3) == if ProposalBranch(hash, 3) !in foreign then Some(3) else None;
  }

  lemma FirstDelivery(hash: string, foreign: set<string>)
    ensures Delivered(FRESH, hash, foreign, WHOLE) ==
      match FirstFree(hash, foreign, 1)
      case None => FRESH
      case Some(n) => State(Some(ProposalBranch(hash, n)), {ProposalBranch(hash, n)})
  {
  }

  /** Three names are tried: the first that is not foreign is used, and with all three foreign nothing
      is published. */
  lemma ThreeNames(hash: string, foreign: set<string>)
    ensures var stem := "wakey/fix-" + (if |hash| < 8 then hash else hash[..8]);
      Delivered(FRESH, hash, foreign, WHOLE) ==
        if stem !in foreign then State(Some(stem), {stem})
        else if stem + "-2" !in foreign then State(Some(stem + "-2"), {stem + "-2"})
        else if stem + "-3" !in foreign then State(Some(stem + "-3"), {stem + "-3"})
        else State(None, {})
  {
    NamesAre(hash);
    FirstOfThree(hash, foreign);
    FirstDelivery(hash, foreign);
  }

  /** What a delivery leaves, for every place it can end: a draft under the name it found exactly when
      the call that opens one landed, and that name stored exactly when it went through, or died with
      the binding written; a raise writes the old name back. */
  lemma DeliveryLeaves(s: State, hash: string, t: Try, n: nat)
    requires FirstFree(hash, t.failing, BoundAttempt(s.branch, hash)) == Some(n)
    ensures var s', a, name := Delivered(s, hash, t.failing, t.attempt), t.attempt, ProposalBranch(hash, n);
      && s'.drafts == (if a.stop == AtBase || a.stop == AtBinding || a.stop == AtCommit || a.stop == AtOpen(false)
                       then s.drafts else s.drafts + {name})
      && s'.branch == (if a.stop == Nowhere || (a.died && a.stop != AtBase && a.stop != AtBinding)
                       then Some(name) else s.branch)
  {
  }

  /** A process that dies after it bound a name and before anything else keeps to that name: the next
      delivery goes on with it whatever other name has come free. */
  lemma DeathKeepsName(s: State, hash: string, t: Try, next: set<string>)
    requires Named(s, hash) && t.attempt.died && t.attempt.stop != AtBase && t.attempt.stop != AtBinding
    requires FirstFree(hash, t.failing, BoundAttempt(s.branch, hash)).Some?
    ensures var s1 := Delivered(s, hash, t.failing, t.attempt);
      && s1.branch.Some?
      && (s1.branch.value !in next ==>
            Delivered(s1, hash, next, WHOLE) == State(s1.branch, s1.drafts + {s1.branch.value}))
  {
    var n := FirstFree(hash, t.failing, BoundAttempt(s.branch, hash)).value;
    BoundIsNamed(s, hash);
    FirstFreeIs(hash, t.failing, BoundAttempt(s.branch, hash));
    BoundIsInverse(hash, n);
  }

  // --- two ways to a second draft -----------------------------------------------------------------------

  lemma RunTwo(hash: string, first: Try, second: Try)
    ensures Run(hash, [first, second])
         == Delivered(Delivered(FRESH, hash, first.failing, first.attempt), hash, second.failing, second.attempt)
  {
    assert [first, second][..1] == [first] && [first][..0] == [];
    assert Run(hash, [first]) == Delivered(Run(hash, []), hash, first.failing, first.attempt);
  }

  /** The name in use cannot be created for a moment: the next delivery moves on to another. */
  lemma PassingFailureSplits(hash: string)
    ensures var one, two := ProposalBranch(hash, 1), ProposalBranch(hash, 2);
      Run(hash, [Try({}, WHOLE), Try({one}, WHOLE)]).drafts == {one, two} && one != two
  {
    var one, two := ProposalBranch(hash, 1), ProposalBranch(hash, 2);
    if one == two { BranchesDiffer(hash, 1, 2); }
    BoundIsInverse(hash, 1);
    assert FirstFree(hash, {one}, 1) == Some(2);
    RunTwo(hash, Try({}, WHOLE), Try({one}, WHOLE));
  }

  /** An earlier name comes free: a delivery that raised after opening its draft lost the
      stored name, and the next one starts over from the first. */
  lemma LostBindingSplits(hash: string)
    ensures var one, two := ProposalBranch(hash, 1), ProposalBranch(hash, 2);
      Run(hash, [Try({one}, Attempt(AtLabel, false)), Try({}, WHOLE)]).drafts == {one, two} && one != two
  {
    var one, two := ProposalBranch(hash, 1), ProposalBranch(hash, 2);
    if one == two { BranchesDiffer(hash, 1, 2); }
    assert FirstFree(hash, {one}, 1) == Some(2);
    RunTwo(hash, Try({one}, Attempt(AtLabel, false)), Try({}, WHOLE));
  }
}
