/** The repro-first fix loop over a workspace: a failing reproduction first, then patches
    until it is green, with the original snapshot as the baseline throughout. */
module FixLoop {
  import opened Basics
  import opened Paths

  type Files = map<Path, string>

  /** A patch lists its files in the order they are written. */
  type Patch = seq<(Name, string)>

  /** A test run: whether it passed, and the failures named in its output. */
  datatype Outcome = Outcome(ok: bool, failures: set<string>)

  /** One iteration: what the proposer offered, the file the disk fails at if any, and the
      run that followed. */
  datatype Turn = Turn(patch: Patch, fault: Option<nat>, outcome: Outcome)

  datatype Script = Script(
    original: Outcome, repro: Name, content: string, reproFault: bool, baseline: Outcome, turns: seq<Turn>)

  datatype Result =
    | Fixed(attempt: nat, changed: Files)
    | NotFixed
    | Rejected(attempt: nat)   // a path or the reproduction itself was touched
    | Broken                   // the disk failed

  // --- containment -----------------------------------------------------------------------------

  function SafeResolve(root: Path, name: Name): Option<Path> {
    if |name| >= 2 && name[0] == "" then None
    else if !(root <= Resolved(root, name)) then None
    else Some(Resolved(root, name))
  }

  predicate Safe(root: Path, patch: Patch) {
    forall i :: 0 <= i < |patch| ==> SafeResolve(root, patch[i].0).Some?
  }

  datatype Disk = Disk(files: Files, raised: bool)

  function Written(ws: Files, root: Path, patch: Patch, fault: Option<nat>): Disk
    requires Safe(root, patch)
  {
    if patch == [] then Disk(ws, false)
    else
      var d := Written(ws, root, patch[..|patch| - 1], fault);
      var (name, content) := patch[|patch| - 1];
      var p := SafeResolve(root, name).value;
      if d.raised then d
      else if fault == Some(|patch| - 1) || Blocked(d.files, root, p) then Disk(d.files, true)
      else Disk(d.files[p := content], false)
  }

  /** Every path is checked before anything is written. */
  function WriteProposed(ws: Files, root: Path, patch: Patch, fault: Option<nat>): Disk {
    if !Safe(root, patch) then Disk(ws, true) else Written(ws, root, patch, fault)
  }

  // --- snapshots ----------------------------------------------------------------------------------

  const SUPPORTED: set<string> := {".py", ".js", ".ts", ".jsx", ".tsx", ".java", ".php", ".go", ".rb", ".rs"}
  const SKIPPED: set<string> := {".git", ".venv", "venv", "node_modules", "__pycache__", "wakey-data"}
  const MAX_SNAPSHOT: nat := 512 * 1024

  function LastDot(s: string): int
    ensures -1 <= LastDot(s) < |s|
  {
    if s == "" then -1 else if s[|s| - 1] == '.' then |s| - 1 else LastDot(s[..|s| - 1])
  }

  function Suffix(s: string): string {
    if 0 < LastDot(s) < |s| - 1 then s[LastDot(s)..] else ""
  }

  /** The size on disk, in UTF-8. */
  function Bytes(s: string): nat {
    if s == "" then 0
    else
      var c := s[|s| - 1] as int;
      Bytes(s[..|s| - 1]) + (if c < 0x80 then 1 else if c < 0x800 then 2 else if c < 0x10000 then 3 else 4)
  }

  predicate Source(root: Path, p: Path) {
    && root < p
    && Suffix(p[|p| - 1]) in SUPPORTED
    && forall i :: |root| <= i < |p| ==> p[i] !in SKIPPED
  }

  function Snapshot(ws: Files, root: Path): Files {
    map p | p in ws && Source(root, p) && Bytes(ws[p]) <= MAX_SNAPSHOT :: ws[p]
  }

  function Changed(original: Files, final: Files): Files {
    map p | p in final && !(p in original && original[p] == final[p]) :: final[p]
  }

  // --- the loop ------------------------------------------------------------------------------------

  predicate Valid(root: Path, patch: Patch, repro: Name) {
    forall i :: 0 <= i < |patch| ==>
      SafeResolve(root, patch[i].0).Some? && SafeResolve(root, patch[i].0) != SafeResolve(root, repro)
  }

  predicate Green(original: Outcome, outcome: Outcome) {
    outcome.ok || (!original.ok && original.failures != {} && outcome.failures <= original.failures)
  }

  /** Turns from `i` on; the result comes with the workspace it leaves. */
  function Patching(ws: Files, root: Path, s: Script, original: Files, i: nat): (Result, Files)
    requires i <= |s.turns|
    decreases |s.turns| - i
  {
    if i == |s.turns| then (NotFixed, ws)
    else
      var turn := s.turns[i];
      if !Valid(root, turn.patch, s.repro) then (Rejected(i + 1), ws)
      else
        var d := WriteProposed(ws, root, turn.patch, turn.fault);
        if d.raised then (Broken, d.files)
        else if Green(s.original, turn.outcome) then (Fixed(i + 1, Changed(original, Snapshot(d.files, root))), d.files)
        else Patching(d.files, root, s, original, i + 1)
  }

  predicate Reproduces(s: Script) {
    !s.baseline.ok && (s.original.ok || !(s.baseline.failures <= s.original.failures))
  }

  function ReproPatch(s: Script): Patch { [(s.repro, s.content)] }

  function ReproFault(s: Script): Option<nat> { if s.reproFault then Some(0) else None }

  function Executed(ws: Files, root: Path, s: Script): (Result, Files) {
    if !Safe(root, ReproPatch(s)) then (Rejected(0), ws)
    else
      var d := WriteProposed(ws, root, ReproPatch(s), ReproFault(s));
      if d.raised then (Broken, d.files)
      else if !Reproduces(s) then (NotFixed, d.files)
      else Patching(d.files, root, s, Snapshot(ws, root), 0)
  }

  class ReproFirstFixer {
    const root: Path
    var files: Files

    constructor (root: Path, files: Files)
      ensures this.root == root && this.files == files
    {
      this.root, this.files := root, files;
    }

    method WriteProposedFiles(patch: Patch, fault: Option<nat>) returns (raised: bool)
      modifies this
      ensures Disk(files, raised) == WriteProposed(old(files), root, patch, fault)
    {
      var targets: seq<Path> := [];
      for i := 0 to |patch|
        invariant files == old(files) && |targets| == i && Safe(root, patch[..i])
        invariant forall j :: 0 <= j < i ==> SafeResolve(root, patch[j].0) == Some(targets[j])
      {
        var target := SafeResolve(root, patch[i].0);
        if target.None? { return true; }
        targets := targets + [target.value];
      }
      for i := 0 to |patch|
        invariant Safe(root, patch) && Disk(files, false) == Written(old(files), root, patch[..i], fault)
      {
        assert patch[..i + 1][..i] == patch[..i];
        if fault == Some(i) || Blocked(files, root, targets[i]) {
          FaultStays(old(files), root, patch, fault, i + 1);
          return true;
        }
        files := files[targets[i] := patch[i].1];
      }
      assert patch[..|patch|] == patch;
      raised := false;
    }

    method Execute(s: Script) returns (result: Result)
      modifies this
      ensures (result, files) == Executed(old(files), root, s)
    {
      var original := Snapshot(files, root);
      if SafeResolve(root, s.repro).None? {
        assert !Safe(root, ReproPatch(s)) by { assert ReproPatch(s)[0].0 == s.repro; }
        return Rejected(0);
      }
      var raised := WriteProposedFiles([(s.repro, s.content)], if s.reproFault then Some(0) else None);
      if raised { return Broken; }
      if s.baseline.ok { return NotFixed; }
      if !s.original.ok && s.baseline.failures <= s.original.failures { return NotFixed; }
      ghost var ws := files;
      for i := 0 to |s.turns|
        invariant Patching(files, root, s, original, i) == Patching(ws, root, s, original, 0)
      {
        var turn := s.turns[i];
        for j := 0 to |turn.patch|
          invariant forall k :: 0 <= k < j ==>
            SafeResolve(root, turn.patch[k].0).Some? && SafeResolve(root, turn.patch[k].0) != SafeResolve(root, s.repro)
        {
          var target := SafeResolve(root, turn.patch[j].0);
          if target.None? || target == SafeResolve(root, s.repro) { return Rejected(i + 1); }
        }
        raised := WriteProposedFiles(turn.patch, turn.fault);
        if raised { return Broken; }
        var better := !s.original.ok && s.original.failures != {} && turn.outcome.failures <= s.original.failures;
        if turn.outcome.ok || better {
          return Fixed(i + 1, Changed(original, Snapshot(files, root)));
        }
      }
      result := NotFixed;
    }
  }

  lemma {:induction false} FaultStays(ws: Files, root: Path, patch: Patch, fault: Option<nat>, n: nat)
    requires Safe(root, patch) && n <= |patch| && Written(ws, root, patch[..n], fault).raised
    ensures Written(ws, root, patch, fault) == Written(ws, root, patch[..n], fault)
    decreases |patch|
  {
    if n < |patch| {
      assert patch[..|patch| - 1][..n] == patch[..n];
      FaultStays(ws, root, patch[..|patch| - 1], fault, n);
    } else {
      assert patch[..n] == patch;
    }
  }

  // --- what writing can do ---------------------------------------------------------------------

  /** The two disks agree everywhere but properly under the root. */
  ghost predicate Outside(root: Path, a: Files, b: Files) {
    forall p :: !(root < p) ==> (p in a <==> p in b) && (p in a && p in b ==> a[p] == b[p])
  }

  ghost predicate Grows(a: Files, b: Files) { forall p | p in a :: p in b }

  predicate Targets(root: Path, patch: Patch, p: Path) {
    exists i :: 0 <= i < |patch| && SafeResolve(root, patch[i].0) == Some(p)
  }

  lemma {:induction false} WrittenOnly(ws: Files, root: Path, patch: Patch, fault: Option<nat>)
    requires Safe(root, patch)
    ensures var d := Written(ws, root, patch, fault);
      && Outside(root, ws, d.files) && Grows(ws, d.files)
      && forall p | p in ws && !Targets(root, patch, p) :: d.files[p] == ws[p]
    decreases |patch|
  {
    if patch != [] {
      var rest := patch[..|patch| - 1];
      WrittenOnly(ws, root, rest, fault);
      forall p | Targets(root, rest, p) ensures Targets(root, patch, p) {
        var i :| 0 <= i < |rest| && SafeResolve(root, rest[i].0) == Some(p);
        assert SafeResolve(root, patch[i].0) == Some(p);
      }
      assert SafeResolve(root, patch[|rest|].0).Some?;
    }
  }

  lemma ReproWritten(ws: Files, root: Path, s: Script)
    requires Safe(root, ReproPatch(s)) && !WriteProposed(ws, root, ReproPatch(s), ReproFault(s)).raised
    ensures var p := SafeResolve(root, ReproPatch(s)[0].0);
      p.Some? && WriteProposed(ws, root, ReproPatch(s), ReproFault(s)).files == ws[p.value := s.content]
  {
    var patch := ReproPatch(s);
    assert patch[..|patch| - 1] == [] && SafeResolve(root, patch[0].0).Some?;
    assert Written(ws, root, patch[..|patch| - 1], ReproFault(s)) == Disk(ws, false);
  }

  // --- the loop, from any turn ----------------------------------------------------------------------

  /** A valid turn leaves the reproduction alone. */
  lemma TurnSparesRepro(ws: Files, root: Path, s: Script, i: nat)
    requires i < |s.turns| && Valid(root, s.turns[i].patch, s.repro)
    requires SafeResolve(root, s.repro).Some? && SafeResolve(root, s.repro).value in ws
    ensures var d := WriteProposed(ws, root, s.turns[i].patch, s.turns[i].fault);
      var p := SafeResolve(root, s.repro).value;
      p in d.files && d.files[p] == ws[p] && Outside(root, ws, d.files) && Grows(ws, d.files)
  {
    var patch := s.turns[i].patch;
    WrittenOnly(ws, root, patch, s.turns[i].fault);
    assert !Targets(root, patch, SafeResolve(root, s.repro).value);
  }

  lemma {:induction false} PatchingKeeps(ws: Files, root: Path, s: Script, original: Files, i: nat)
    requires i <= |s.turns| && SafeResolve(root, s.repro).Some? && SafeResolve(root, s.repro).value in ws
    ensures var (r, final) := Patching(ws, root, s, original, i);
      var p := SafeResolve(root, s.repro).value;
      && p in final && final[p] == ws[p] && Outside(root, ws, final) && Grows(ws, final)
      && (r.Fixed? ==>
            && i < r.attempt <= |s.turns| && Green(s.original, s.turns[r.attempt - 1].outcome)
            && (forall j :: i <= j < r.attempt - 1 ==> !Green(s.original, s.turns[j].outcome))
            && r.changed == Changed(original, Snapshot(final, root)))
    decreases |s.turns| - i
  {
    if i < |s.turns| && Valid(root, s.turns[i].patch, s.repro) {
      var d := WriteProposed(ws, root, s.turns[i].patch, s.turns[i].fault);
      TurnSparesRepro(ws, root, s, i);
      if !d.raised && !Green(s.original, s.turns[i].outcome) {
        PatchingKeeps(d.files, root, s, original, i + 1);
      }
    }
  }

  lemma SafeRepro(root: Path, s: Script)
    ensures Safe(root, ReproPatch(s)) <==> SafeResolve(root, s.repro).Some?
  {
    assert ReproPatch(s)[0].0 == s.repro;
  }

  // --- whole executions -------------------------------------------------------------------------------

  /** A success is proven: the reproduction was red, and for a reason of its own, before any
      patch; the last run passed, or failed only where the original suite did and at least
      one failure the reproduction brought is gone; no earlier run was good enough; and the
      reproduction is still as it was written. */
  lemma SuccessIsProven(ws: Files, root: Path, s: Script)
    requires Executed(ws, root, s).0.Fixed?
    ensures var (r, final) := Executed(ws, root, s);
      && 1 <= r.attempt <= |s.turns|
      && !s.baseline.ok
      && var last := s.turns[r.attempt - 1].outcome;
      && (last.ok || (last.failures <= s.original.failures
                      && exists f :: f in s.baseline.failures && f !in s.original.failures && f !in last.failures))
      && (forall j :: 0 <= j < r.attempt - 1 ==> !s.turns[j].outcome.ok)
      && SafeResolve(root, s.repro).Some?
      && SafeResolve(root, s.repro).value in final && final[SafeResolve(root, s.repro).value] == s.content
  {
    SafeRepro(root, s);
    ReproWritten(ws, root, s);
    var d := WriteProposed(ws, root, ReproPatch(s), ReproFault(s));
    PatchingKeeps(d.files, root, s, Snapshot(ws, root), 0);
    var last := s.turns[Executed(ws, root, s).0.attempt - 1].outcome;
    if !last.ok {
      var f :| f in s.baseline.failures && f !in s.original.failures;
      assert f !in last.failures;
    }
  }

  /** What is published is what the last run saw: laying the changed files over the original
      snapshot gives the final one, exactly when no original file outgrew the size cap. */
  lemma OverlayIsTested(ws: Files, root: Path, s: Script)
    requires Executed(ws, root, s).0.Fixed?
    ensures var (r, final) := Executed(ws, root, s);
      && (forall p | p in Snapshot(ws, root) :: p in final)
      && (Snapshot(ws, root) + r.changed == Snapshot(final, root)
          <==> forall p | p in Snapshot(ws, root) :: Bytes(final[p]) <= MAX_SNAPSHOT)
  {
    SafeRepro(root, s);
    ReproWritten(ws, root, s);
    var d := WriteProposed(ws, root, ReproPatch(s), ReproFault(s));
    PatchingKeeps(d.files, root, s, Snapshot(ws, root), 0);
    var (r, final) := Executed(ws, root, s);
    Overlay(Snapshot(ws, root), Snapshot(final, root));
  }

  lemma Overlay(original: Files, final: Files)
    ensures original + Changed(original, final) == final <==> forall p | p in original :: p in final
  {
    var overlaid := original + Changed(original, final);
    if forall p | p in original :: p in final {
      forall p | p in final ensures p in overlaid && overlaid[p] == final[p] {}
    } else {
      var p :| p in original && p !in final;
      assert p in overlaid;
    }
  }

  /** Whatever is proposed and however it ends, nothing changes outside the root. */
  lemma NothingOutside(ws: Files, root: Path, s: Script)
    ensures Outside(root, ws, Executed(ws, root, s).1)
  {
    SafeRepro(root, s);
    if Safe(root, ReproPatch(s)) {
      var d := WriteProposed(ws, root, ReproPatch(s), ReproFault(s));
      WrittenOnly(ws, root, ReproPatch(s), ReproFault(s));
      if !d.raised {
        ReproWritten(ws, root, s);
        PatchingKeeps(d.files, root, s, Snapshot(ws, root), 0);
      }
    }
  }

  lemma {:induction false} PatchingStops(ws: Files, root: Path, s: Script, original: Files, i: nat, n: nat)
    requires i <= |s.turns| && Patching(ws, root, s, original, i).0 == Rejected(n)
    ensures i < n <= |s.turns|
    ensures Patching(ws, root, s.(turns := s.turns[..n - 1]), original, i)
         == (NotFixed, Patching(ws, root, s, original, i).1)
    decreases |s.turns| - i
  {
    if Valid(root, s.turns[i].patch, s.repro) {
      PatchingStops(WriteProposed(ws, root, s.turns[i].patch, s.turns[i].fault).files, root, s, original, i + 1, n);
    }
  }

  /** A rejected patch writes nothing: the workspace is what it would be had the loop ended
      before it. */
  lemma RejectionWritesNothing(ws: Files, root: Path, s: Script, n: nat)
    requires Executed(ws, root, s).0 == Rejected(n)
    ensures n <= |s.turns|
    ensures Executed(ws, root, s).1 == if n == 0 then ws else Executed(ws, root, s.(turns := s.turns[..n - 1])).1
  {
    if Safe(root, ReproPatch(s)) {
      var d := WriteProposed(ws, root, ReproPatch(s), ReproFault(s));
      PatchingStops(d.files, root, s, Snapshot(ws, root), 0, n);
      assert ReproPatch(s.(turns := s.turns[..n - 1])) == ReproPatch(s);
    }
  }

  // --- a success that cannot be laid over the original ---------------------------------------------

  function Filler(n: nat): string { seq(n, _ => 'x') }

  lemma {:induction false} FillerBytes(n: nat)
    ensures Bytes(Filler(n)) == n
  {
    if n > 0 {
      assert Filler(n)[..n - 1] == Filler(n - 1);
      FillerBytes(n - 1);
    }
  }

  const ROOT: Path := ["w"]
  const SMALL: Files := map[["w", "a.py"] := "1"]

  /** The patch makes the only source file larger than the snapshot takes. */
  function Outgrowing(): Script {
    Script(Outcome(true, {}), ["t.py"], "t", false, Outcome(false, {"t"}),
           [Turn([(["a.py"], Filler(MAX_SNAPSHOT + 1))], None, Outcome(true, {}))])
  }

  lemma PyIsSource(name: string)
    requires name == "a.py" || name == "t.py"
    ensures Suffix(name) == ".py" && Source(ROOT, ["w", name])
  {
    assert name[..3][..2][..1] == name[..1];
    assert LastDot(name[..3][..2]) == 1;
    assert LastDot(name[..3]) == 1;
    assert LastDot(name) == 1;
    assert name[1..] == ".py";
  }

  lemma OneName(name: string)
    requires name == "a.py" || name == "t.py"
    ensures SafeResolve(ROOT, [name]) == Some(["w", name])
  {
    NormalResolves(ROOT, [name]);
    assert ROOT + [name] == ["w", name];
  }

  lemma OnePatch(ws: Files, name: string, content: string)
    requires name == "a.py" || name == "t.py"
    requires ws.Keys <= {["w", "a.py"], ["w", "t.py"]}
    ensures WriteProposed(ws, ROOT, [([name], content)], None) == Disk(ws[["w", name] := content], false)
  {
    var patch: Patch := [([name], content)];
    OneName(name);
    assert patch[..0] == [] && Written(ws, ROOT, patch[..0], None) == Disk(ws, false);
    assert ["w", "a.py"][1] == "a.py" && ["w", "t.py"][1] == "t.py";
    assert !Blocked(ws, ROOT, ["w", name]);
  }

  /** The overlay condition can fail: the loop succeeds, and the grown file drops out of the
      final snapshot, so that laying the changes over the original leaves its old content. */
  lemma OverlayCanFail()
    ensures var (r, final) := Executed(SMALL, ROOT, Outgrowing());
      r.Fixed? && Snapshot(SMALL, ROOT) + r.changed != Snapshot(final, ROOT)
  {
    var s := Outgrowing();
    var big := Filler(MAX_SNAPSHOT + 1);
    var ws1 := SMALL[["w", "t.py"] := "t"];
    PyIsSource("a.py");
    FillerBytes(MAX_SNAPSHOT + 1);
    OneName("a.py");
    OneName("t.py");
    assert ["w", "a.py"][1] != ["w", "t.py"][1];
    OnePatch(SMALL, "t.py", "t");
    OnePatch(ws1, "a.py", big);
    assert Valid(ROOT, s.turns[0].patch, s.repro);
    assert Executed(SMALL, ROOT, s).1 == ws1[["w", "a.py"] := big];
    OverlayIsTested(SMALL, ROOT, s);
    assert Bytes("1") == 1 by { assert "1"[..0] == ""; }
    assert ["w", "a.py"] in Snapshot(SMALL, ROOT);
  }

  // --- when the loop succeeds -----------------------------------------------------------------------

  /** The reproduction is red for a reason of its own. */
  predicate Red(s: Script) {
    !s.baseline.ok && (s.original.ok || exists f :: f in s.baseline.failures && f !in s.original.failures)
  }

  /** The run passed, or the suite was failing before and only fails where it did. */
  predicate Acceptable(s: Script, run: Outcome) {
    run.ok
    || (!s.original.ok && |s.original.failures| > 0 && forall f | f in run.failures :: f in s.original.failures)
  }

  /** Every path stays under the root and none is the reproduction. */
  predicate Spares(root: Path, patch: Patch, repro: Name) {
    forall i :: 0 <= i < |patch| ==> Inside(root, patch[i].0) && Resolved(root, patch[i].0) != Resolved(root, repro)
  }

  /** Relative, and resolved to the root or below. */
  predicate Inside(root: Path, name: Name) { !(|name| >= 2 && name[0] == "") && root <= Resolved(root, name) }

  /** The workspace before turn `j`, when every turn from `i` on was written. */
  function FilesFrom(ws: Files, root: Path, s: Script, i: nat, j: nat): Files
    requires j <= |s.turns|
    decreases j - i
  {
    if i >= j then ws
    else FilesFrom(WriteProposed(ws, root, s.turns[i].patch, s.turns[i].fault).files, root, s, i + 1, j)
  }

  predicate WritesFrom(ws: Files, root: Path, s: Script, i: nat, j: nat)
    requires j < |s.turns|
  {
    !WriteProposed(FilesFrom(ws, root, s, i, j), root, s.turns[j].patch, s.turns[j].fault).raised
  }

  /** Turn `j` spares the reproduction, is written, and does not help. */
  predicate Passes(ws: Files, root: Path, s: Script, i: nat, j: nat)
    requires j < |s.turns|
  {
    Spares(root, s.turns[j].patch, s.repro) && WritesFrom(ws, root, s, i, j) && !Acceptable(s, s.turns[j].outcome)
  }

  /** What the loop ends with at turn `k`. */
  function DecidedBy(ws: Files, root: Path, s: Script, original: Files, i: nat, k: nat): (Result, Files)
    requires k <= |s.turns|
  {
    var before := FilesFrom(ws, root, s, i, k);
    if k == |s.turns| then (NotFixed, before)
    else if !Spares(root, s.turns[k].patch, s.repro) then (Rejected(k + 1), before)
    else
      var d := WriteProposed(before, root, s.turns[k].patch, s.turns[k].fault);
      if d.raised then (Broken, d.files) else (Fixed(k + 1, Changed(original, Snapshot(d.files, root))), d.files)
  }

  lemma InsideIff(root: Path, name: Name)
    ensures Inside(root, name) <==> SafeResolve(root, name).Some?
    ensures Inside(root, name) ==> SafeResolve(root, name) == Some(Resolved(root, name))
  {
  }

  lemma SparesIff(root: Path, patch: Patch, repro: Name)
    requires SafeResolve(root, repro).Some?
    ensures Spares(root, patch, repro) <==> Valid(root, patch, repro)
  {
    InsideIff(root, repro);
    forall i | 0 <= i < |patch|
      ensures (Inside(root, patch[i].0) && Resolved(root, patch[i].0) != Resolved(root, repro))
         <==> (SafeResolve(root, patch[i].0).Some? && SafeResolve(root, patch[i].0) != SafeResolve(root, repro))
    {
      InsideIff(root, patch[i].0);
    }
  }

  lemma AcceptableIff(s: Script, run: Outcome)
    ensures Acceptable(s, run) <==> Green(s.original, run)
  {
  }

  lemma PassesLater(ws: Files, root: Path, s: Script, i: nat, j: nat)
    requires i < j < |s.turns|
    ensures var next := WriteProposed(ws, root, s.turns[i].patch, s.turns[i].fault).files;
      Passes(next, root, s, i + 1, j) <==> Passes(ws, root, s, i, j)
  {
  }

  lemma {:induction false} PatchingDecided(ws: Files, root: Path, s: Script, original: Files, i: nat, k: nat)
    requires i <= k <= |s.turns| && SafeResolve(root, s.repro).Some?
    requires forall j :: i <= j < k ==> Passes(ws, root, s, i, j)
    requires k < |s.turns| ==> !Passes(ws, root, s, i, k)
    ensures Patching(ws, root, s, original, i) == DecidedBy(ws, root, s, original, i, k)
    decreases k - i
  {
    if i < |s.turns| {
      SparesIff(root, s.turns[i].patch, s.repro);
      AcceptableIff(s, s.turns[i].outcome);
    }
    if i < k {
      var next := WriteProposed(ws, root, s.turns[i].patch, s.turns[i].fault).files;
      assert Passes(ws, root, s, i, i);
      var later := i + 1;
      forall j | later <= j < k ensures Passes(next, root, s, later, j) { PassesLater(ws, root, s, i, j); }
      if k < |s.turns| { PassesLater(ws, root, s, i, k); }
      PatchingDecided(next, root, s, original, later, k);
    }
  }

  /** With a red reproduction written, the first turn that does not just fail decides: it is
      rejected, breaks on the disk, or is the fix; and with none there is no fix.  So a first
      acceptable turn, also one that leaves an already failing suite no worse, is the fix. */
  lemma FirstTurnDecides(ws: Files, root: Path, s: Script, k: nat)
    requires k <= |s.turns| && Red(s) && Inside(root, s.repro)
    requires !s.reproFault && !Blocked(ws, root, Resolved(root, s.repro))
    requires var ws1 := ws[Resolved(root, s.repro) := s.content];
      && (forall j :: 0 <= j < k ==> Passes(ws1, root, s, 0, j))
      && (k < |s.turns| ==> !Passes(ws1, root, s, 0, k))
    ensures var ws1 := ws[Resolved(root, s.repro) := s.content];
      Executed(ws, root, s) == DecidedBy(ws1, root, s, Snapshot(ws, root), 0, k)
  {
    InsideIff(root, s.repro);
    SafeRepro(root, s);
    var patch := ReproPatch(s);
    assert patch[..|patch| - 1] == [];
    assert Written(ws, root, patch[..|patch| - 1], None) == Disk(ws, false);
    assert Reproduces(s);
    PatchingDecided(ws[Resolved(root, s.repro) := s.content], root, s, Snapshot(ws, root), 0, k);
  }

  /** Without a red reproduction nothing is ever published. */
  lemma OnlyRedIsFixed(ws: Files, root: Path, s: Script)
    requires !Red(s)
    ensures !Executed(ws, root, s).0.Fixed?
  {
  }

  // --- the path without tests -----------------------------------------------------------------------

  /** One patch, contained like any other, that has to change some source file. */
  function Untested(ws: Files, root: Path, patch: Patch, fault: Option<nat>): (Result, Files) {
    if patch == [] then (NotFixed, ws)
    else if !Safe(root, patch) then (Rejected(1), ws)
    else
      var d := WriteProposed(ws, root, patch, fault);
      var changed := Changed(Snapshot(ws, root), Snapshot(d.files, root));
      if d.raised then (Broken, d.files)
      else if changed == map[] then (NotFixed, d.files)
      else (Fixed(1, changed), d.files)
  }

  lemma UntestedIsContained(ws: Files, root: Path, patch: Patch, fault: Option<nat>)
    ensures var (r, final) := Untested(ws, root, patch, fault);
      && Outside(root, ws, final)
      && (forall p | p in Snapshot(ws, root) :: p in final)
      && (r.Rejected? ==> final == ws)
      && (r.Fixed? ==>
            && r.changed != map[]
            && (Snapshot(ws, root) + r.changed == Snapshot(final, root)
                <==> forall p | p in Snapshot(ws, root) :: Bytes(final[p]) <= MAX_SNAPSHOT))
  {
    if Safe(root, patch) {
      WrittenOnly(ws, root, patch, fault);
      Overlay(Snapshot(ws, root), Snapshot(Untested(ws, root, patch, fault).1, root));
    }
  }
}
