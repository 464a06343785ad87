/** Packing a workspace into an archive, and extracting one behind the safety gates. */
module PackExtract {
  import opened Basics
  import opened Paths

  type Data = string

  datatype Kind = File | Link | Other

  datatype Member = Member(name: Name, kind: Kind, data: Data)

  const MAX_UPLOAD: nat := 32 * 1024 * 1024
  const MAX_TARBALL: nat := 32 * 1024 * 1024
  const MAX_EXTRACTED: nat := 128 * 1024 * 1024
  const MAX_FILES: nat := 20000

  function Stripped(root: Comp, name: Name): Name {
    if |name| >= 2 && name[0] == root then name[1..] else name
  }

  // --- extraction ----------------------------------------------------------------------------

  datatype State = State(total: nat, files: nat, root: Option<Comp>, tree: map<Path, Data>)

  /** Extraction goes on, or has raised and leaves what it wrote. */
  datatype Progress = Going(s: State) | Raised(left: map<Path, Data>)

  predicate Escapes(ws: Path, name: Name) { !(ws <= Under(ws, name)) }

  function ExtractOne(ws: Path, s: State, m: Member): Progress
    requires m.name != []
  {
    if Escapes(ws, m.name) || m.kind.Link? then Raised(s.tree)
    else if !m.kind.File? then Going(s)
    else
      var root := if s.root.Some? then s.root.value else m.name[0];
      var total, files := s.total + |m.data|, s.files + 1;
      var dest := Under(ws, Stripped(root, m.name));
      if total > MAX_EXTRACTED || files > MAX_FILES || !(ws <= dest) || Blocked(s.tree, ws, dest) then Raised(s.tree)
      else Going(State(total, files, Some(root), s.tree[dest := m.data]))
  }

  predicate Named(members: seq<Member>) { forall i :: 0 <= i < |members| ==> members[i].name != [] }

  function ExtractAll(ws: Path, members: seq<Member>): Progress
    requires Named(members)
  {
    if members == [] then Going(State(0, 0, None, map[]))
    else
      match ExtractAll(ws, members[..|members| - 1])
      case Raised(left) => Raised(left)
      case Going(s) => ExtractOne(ws, s, members[|members| - 1])
  }

  function Extracted(ws: Path, raw: nat, members: seq<Member>): Progress
    requires Named(members)
  {
    if raw > MAX_TARBALL then Raised(map[]) else ExtractAll(ws, members)
  }

  /** One turn of the loop over the members. */
  method ExtractMember(ws: Path, s: State, m: Member) returns (ok: bool, s': State)
    requires m.name != []
    ensures ExtractOne(ws, s, m) == if ok then Going(s') else Raised(s.tree)
  {
    ok, s' := false, s;
    var target := Under(ws, m.name);
    if !(ws <= target) || m.kind.Link? { return; }
    if !m.kind.File? { return true, s; }
    var root := if s.root.None? then m.name[0] else s.root.value;
    var total, files := s.total + |m.data|, s.files + 1;
    if total > MAX_EXTRACTED || files > MAX_FILES { return; }
    var name := if |m.name| >= 2 && m.name[0] == root then m.name[1..] else m.name;
    var dest := Under(ws, name);
    if !(ws <= dest) || Blocked(s.tree, ws, dest) { return; }
    ok, s' := true, State(total, files, Some(root), s.tree[dest := m.data]);
  }

  method ExtractTarball(ws: Path, raw: nat, members: seq<Member>) returns (ok: bool, tree: map<Path, Data>)
    requires Named(members)
    ensures var p := Extracted(ws, raw, members);
      if ok then p.Going? && tree == p.s.tree else p == Raised(tree)
  {
    if raw > MAX_TARBALL { return false, map[]; }
    var s := State(0, 0, None, map[]);
    for i := 0 to |members|
      invariant ExtractAll(ws, members[..i]) == Going(s)
    {
      assert members[..i + 1][..i] == members[..i];
      var went, s' := ExtractMember(ws, s, members[i]);
      if !went {
        RaisedStays(ws, members, i + 1);
        return false, s.tree;
      }
      s := s';
    }
    assert members[..|members|] == members;
    ok, tree := true, s.tree;
  }

  lemma {:induction false} RaisedStays(ws: Path, members: seq<Member>, n: nat)
    requires Named(members) && n <= |members| && ExtractAll(ws, members[..n]).Raised?
    ensures ExtractAll(ws, members) == ExtractAll(ws, members[..n])
    decreases |members|
  {
    if n < |members| {
      RaisedStays(ws, members[..|members| - 1], n) by { assert members[..|members| - 1][..n] == members[..n]; }
      assert members[..|members| - 1][..n] == members[..n];
    } else {
      assert members[..n] == members;
    }
  }

  // --- nothing is written outside -----------------------------------------------------------------

  function Tree(p: Progress): map<Path, Data> { if p.Going? then p.s.tree else p.left }

  /** Everything lies properly under the workspace, and no file is where a directory is. */
  predicate Inside(ws: Path, tree: map<Path, Data>) {
    && (forall p | p in tree :: ws < p)
    && (forall p, q | p in tree && q in tree :: !(p < q))
  }

  lemma OneStaysInside(ws: Path, s: State, m: Member)
    requires m.name != [] && Inside(ws, s.tree)
    ensures Inside(ws, Tree(ExtractOne(ws, s, m)))
  {
    var p := ExtractOne(ws, s, m);
    if p.Going? && m.kind.File? {
      var dest := Under(ws, Stripped(if s.root.Some? then s.root.value else m.name[0], m.name));
      assert p.s.tree == s.tree[dest := m.data] && ws < dest;
    }
  }

  /** Whatever the archive holds, and whether or not extraction raises, nothing is written
      outside the workspace. */
  lemma {:induction false} NeverOutside(ws: Path, members: seq<Member>)
    requires Named(members)
    ensures Inside(ws, Tree(ExtractAll(ws, members)))
  {
    if members != [] {
      NeverOutside(ws, members[..|members| - 1]);
      var p := ExtractAll(ws, members[..|members| - 1]);
      if p.Going? { OneStaysInside(ws, p.s, members[|members| - 1]); }
    }
  }

  /** Extraction that does not raise keeps to its caps and met no link. */
  lemma {:induction false} CapsKept(ws: Path, members: seq<Member>)
    requires Named(members) && ExtractAll(ws, members).Going?
    ensures var s := ExtractAll(ws, members).s;
      s.total <= MAX_EXTRACTED && s.files <= MAX_FILES && |s.tree| <= s.files
    ensures forall i :: 0 <= i < |members| ==> !members[i].kind.Link? && !Escapes(ws, members[i].name)
  {
    if members != [] {
      CapsKept(ws, members[..|members| - 1]);
      assert forall i :: 0 <= i < |members| - 1 ==> members[i] == members[..|members| - 1][i];
    }
  }

  // --- where files end up ---------------------------------------------------------------------------

  lemma NormalUnder(ws: Path, name: Name)
    requires Normal(name)
    ensures Under(ws, name) == ws + name && !Escapes(ws, name)
  {
    NormalResolves(ws, name);
  }

  /** Files of a directory tree: proper names, and none inside another. */
  predicate Dir(tree: map<Name, Data>) {
    && (forall n | n in tree :: n != [] && Normal(n))
    && (forall m, n | m in tree && n in tree :: !(m < n))
  }

  /** The tree, and nothing else, lies under the workspace. */
  ghost predicate Placed(ws: Path, tree: map<Name, Data>, left: map<Path, Data>) {
    && (forall n | n in tree :: ws + n in left && left[ws + n] == tree[n])
    && (forall p | p in left :: ws <= p && p[|ws|..] in tree)
  }

  /** File `i` of an archive is to end up as name `names[i]` of the tree. */
  ghost predicate Lists(names: seq<Name>, tree: map<Name, Data>) {
    && (forall i :: 0 <= i < |names| ==> names[i] in tree)
    && (forall n | n in tree :: n in names)
    && (forall i, j :: 0 <= i < j < |names| ==> names[i] != names[j])
  }

  function Size(names: seq<Name>, tree: map<Name, Data>): nat
    requires forall i :: 0 <= i < |names| ==> names[i] in tree
  {
    if names == [] then 0 else Size(names[..|names| - 1], tree) + |tree[names[|names| - 1]]|
  }

  function Part(names: seq<Name>, tree: map<Name, Data>): map<Name, Data> {
    map n | n in tree && n in names :: tree[n]
  }

  /** The archive of a listing, each file renamed by `prefix`. */
  function Archive(prefix: Name, names: seq<Name>, tree: map<Name, Data>): seq<Member>
    requires forall i :: 0 <= i < |names| ==> names[i] in tree
  {
    seq(|names|, i requires 0 <= i < |names| => Member(prefix + names[i], File, tree[names[i]]))
  }

  lemma ArchiveInit(prefix: Name, names: seq<Name>, tree: map<Name, Data>)
    requires names != [] && forall i :: 0 <= i < |names| ==> names[i] in tree
    ensures Archive(prefix, names, tree)[..|names| - 1] == Archive(prefix, names[..|names| - 1], tree)
  {
  }

  predicate Fits(names: seq<Name>, tree: map<Name, Data>)
    requires forall i :: 0 <= i < |names| ==> names[i] in tree
  {
    Size(names, tree) <= MAX_EXTRACTED && |names| <= MAX_FILES
  }

  /** The stripping root takes `prefix` off every name of the tree, and nothing more. */
  ghost predicate Takes(root: Comp, prefix: Name, tree: map<Name, Data>) {
    forall n | n in tree :: prefix + n != [] && Stripped(root, prefix + n) == n
  }

  lemma SameEnd(ws: Path, m: Name, n: Name)
    ensures (ws + n)[|ws|..] == n && (ws + m == ws + n ==> m == n)
    ensures ws + m < ws + n ==> m < n
  {
    assert (ws + m)[|ws|..] == m && (ws + n)[|ws|..] == n;
    if ws + m < ws + n {
      assert (ws + n)[..|ws + m|] == ws + m;
      assert n[..|m|] == (ws + n)[|ws|..|ws + m|] == m;
    }
  }

  lemma NotBlocked(ws: Path, part: map<Name, Data>, n: Name, left: map<Path, Data>)
    requires n != [] && Placed(ws, part, left) && forall m | m in part :: !(m < n) && !(n < m)
    ensures !Blocked(left, ws, ws + n)
  {
    forall q | q in left ensures !(q < ws + n) && !(ws + n < q) {
      var m := q[|ws|..];
      assert q == ws + m;
      SameEnd(ws, m, n);
      SameEnd(ws, n, m);
    }
  }

  lemma PlacedGrows(ws: Path, part: map<Name, Data>, n: Name, d: Data, left: map<Path, Data>)
    requires Placed(ws, part, left)
    ensures Placed(ws, part[n := d], left[ws + n := d])
  {
    SameEnd(ws, n, n);
    forall m | m in part ensures ws + m == ws + n ==> m == n { SameEnd(ws, m, n); }
  }

  lemma PartGrows(names: seq<Name>, tree: map<Name, Data>)
    requires names != [] && forall i :: 0 <= i < |names| ==> names[i] in tree
    ensures var n := names[|names| - 1]; Part(names, tree) == Part(names[..|names| - 1], tree)[n := tree[n]]
  {
    assert names == names[..|names| - 1] + [names[|names| - 1]];
  }

  /** A file within the caps whose place is free goes there. */
  lemma FileGoes(ws: Path, s: State, m: Member, root: Comp, dest: Path)
    requires m.name != [] && m.kind.File? && !Escapes(ws, m.name)
    requires root == (if s.root.Some? then s.root.value else m.name[0]) && dest == Under(ws, Stripped(root, m.name))
    requires s.total + |m.data| <= MAX_EXTRACTED && s.files < MAX_FILES
    requires ws <= dest && !Blocked(s.tree, ws, dest)
    ensures ExtractOne(ws, s, m) == Going(State(s.total + |m.data|, s.files + 1, Some(root), s.tree[dest := m.data]))
  {
  }

  /** A file that was extracted went where its stripped name says. */
  lemma FileWent(ws: Path, s: State, m: Member, root: Comp)
    requires m.name != [] && m.kind.File? && ExtractOne(ws, s, m).Going?
    requires root == if s.root.Some? then s.root.value else m.name[0]
    ensures ExtractOne(ws, s, m)
         == Going(
            State(s.total + |m.data|, s.files + 1, Some(root), s.tree[Under(ws, Stripped(root, m.name)) := m.data]))
  {
  }

  /** One more file of the tree is extracted to its place. */
  lemma PlaceOne(ws: Path, prefix: Name, root: Comp, names: seq<Name>, tree: map<Name, Data>, s: State)
    requires Dir(tree) && Normal(prefix) && Takes(root, prefix, tree) && names != []
    requires forall i :: 0 <= i < |names| ==> names[i] in tree
    requires Fits(names, tree) && (prefix + names[0])[0] == root
    requires var rest := names[..|names| - 1];
      && s.total == Size(rest, tree) && s.files == |rest| && s.root == (if rest == [] then None else Some(root))
      && Placed(ws, Part(rest, tree), s.tree)
    ensures var n := names[|names| - 1];
      ExtractOne(ws, s, Member(prefix + n, File, tree[n]))
      == Going(State(Size(names, tree), |names|, Some(root), s.tree[ws + n := tree[n]]))
  {
    var n := names[|names| - 1];
    NormalUnder(ws, n);
    NormalUnder(ws, prefix + n);
    NotBlocked(ws, Part(names[..|names| - 1], tree), n, s.tree);
    assert Stripped(root, prefix + n) == n;
    assert |names| == 1 ==> n == names[0];
    FileGoes(ws, s, Member(prefix + n, File, tree[n]), root, ws + n);
  }

  function Last(prefix: Name, names: seq<Name>, tree: map<Name, Data>): Member
    requires names != [] && forall i :: 0 <= i < |names| ==> names[i] in tree
  {
    Member(prefix + names[|names| - 1], File, tree[names[|names| - 1]])
  }

  lemma ExtractLast(ws: Path, prefix: Name, names: seq<Name>, tree: map<Name, Data>)
    requires Dir(tree) && names != [] && forall i :: 0 <= i < |names| ==> names[i] in tree
    requires Named(Archive(prefix, names[..|names| - 1], tree))
    ensures Named(Archive(prefix, names, tree)) && Last(prefix, names, tree).name != []
    ensures var before := ExtractAll(ws, Archive(prefix, names[..|names| - 1], tree));
      ExtractAll(ws, Archive(prefix, names, tree))
      == if before.Raised? then before else ExtractOne(ws, before.s, Last(prefix, names, tree))
  {
    ArchiveInit(prefix, names, tree);
    var archive := Archive(prefix, names, tree);
    assert archive[|archive| - 1] == Last(prefix, names, tree);
    forall i | 0 <= i < |archive| ensures archive[i].name != [] {
      assert names[i] in tree && archive[i].name == prefix + names[i];
    }
  }

  /** Extracting an archive whose stripping root takes exactly the prefix gives the tree. */
  lemma {:induction false} ExtractPlaces(ws: Path, prefix: Name, root: Comp, names: seq<Name>, tree: map<Name, Data>)
    requires Dir(tree) && Normal(prefix) && Takes(root, prefix, tree)
    requires forall i :: 0 <= i < |names| ==> names[i] in tree
    requires Fits(names, tree) && (names != [] ==> (prefix + names[0])[0] == root)
    ensures Named(Archive(prefix, names, tree))
    ensures var p := ExtractAll(ws, Archive(prefix, names, tree));
      && p.Going? && p.s.total == Size(names, tree) && p.s.files == |names|
      && p.s.root == (if names == [] then None else Some(root))
      && Placed(ws, Part(names, tree), p.s.tree)
    decreases |names|
  {
    if names != [] {
      var rest, n := names[..|names| - 1], names[|names| - 1];
      ExtractPlaces(ws, prefix, root, rest, tree);
      ExtractLast(ws, prefix, names, tree);
      var s := ExtractAll(ws, Archive(prefix, rest, tree)).s;
      assert Fits(rest, tree) && (rest != [] ==> rest[0] == names[0]);
      PlaceOne(ws, prefix, root, names, tree, s);
      PartGrows(names, tree);
      PlacedGrows(ws, Part(rest, tree), n, tree[n], s.tree);
    }
  }

  // --- archives with directories in them ------------------------------------------------------

  /** The files of an archive, in order. */
  function FilesOf(members: seq<Member>): seq<Member> {
    if members == [] then []
    else
      FilesOf(members[..|members| - 1])
      + (if members[|members| - 1].kind.File? then [members[|members| - 1]] else [])
  }

  predicate Harmless(ws: Path, m: Member) { m.name != [] && !m.kind.Link? && !Escapes(ws, m.name) }

  lemma {:induction false} FilesNamed(ws: Path, members: seq<Member>)
    requires forall i :: 0 <= i < |members| ==> Harmless(ws, members[i])
    ensures Named(members) && Named(FilesOf(members))
  {
    if members != [] { FilesNamed(ws, members[..|members| - 1]); }
  }

  lemma ExtractAppend(ws: Path, members: seq<Member>, m: Member)
    requires Named(members) && m.name != []
    ensures Named(members + [m])
    ensures var p := ExtractAll(ws, members);
      ExtractAll(ws, members + [m]) == if p.Raised? then p else ExtractOne(ws, p.s, m)
  {
    assert (members + [m])[..|members|] == members;
  }

  /** Members that are neither files nor links, directories above all, make no difference. */
  lemma {:induction false} OthersSkipped(ws: Path, members: seq<Member>)
    requires forall i :: 0 <= i < |members| ==> Harmless(ws, members[i])
    ensures Named(members) && Named(FilesOf(members))
    ensures ExtractAll(ws, members) == ExtractAll(ws, FilesOf(members))
  {
    FilesNamed(ws, members);
    if members != [] {
      var rest, last := members[..|members| - 1], members[|members| - 1];
      OthersSkipped(ws, rest);
      assert Harmless(ws, last);
      if last.kind.File? {
        ExtractAppend(ws, FilesOf(rest), last);
      } else {
        assert FilesOf(members) == FilesOf(rest);
      }
    }
  }

  lemma RootTaken(ws: Path, root: Comp, names: seq<Name>, tree: map<Name, Data>)
    requires Dir(tree) && Lists(names, tree) && Normal([root]) && Fits(names, tree)
    ensures Named(Archive([root], names, tree))
    ensures var p := ExtractAll(ws, Archive([root], names, tree)); p.Going? && Placed(ws, tree, p.s.tree)
  {
    forall n | n in tree ensures Stripped(root, [root] + n) == n { assert ([root] + n)[1..] == n; }
    ExtractPlaces(ws, [root], root, names, tree);
    assert Part(names, tree) == tree;
  }

  /** An archive whose files all lie under one root directory, with directories and other
      members that are not links anywhere among them, extracts within the caps to the tree
      with exactly that root removed. */
  lemma SingleRootRemoved(
      ws: Path, raw: nat, root: Comp, members: seq<Member>, names: seq<Name>, tree: map<Name, Data>)
    requires Dir(tree) && Lists(names, tree) && Normal([root]) && Fits(names, tree) && raw <= MAX_TARBALL
    requires forall i :: 0 <= i < |members| ==> Harmless(ws, members[i])
    requires FilesOf(members) == Archive([root], names, tree)
    ensures Named(members)
    ensures var p := Extracted(ws, raw, members); p.Going? && Placed(ws, tree, p.s.tree)
  {
    OthersSkipped(ws, members);
    RootTaken(ws, root, names, tree);
  }

  /** A directory's name ends in a slash, which resolving drops. */
  lemma DirectoriesAreHarmless(ws: Path, name: Name, data: Data)
    requires Normal(name) && name != []
    ensures Harmless(ws, Member(name + [""], Other, data))
  {
    ResolvedDirectory(ws, name);
  }

  lemma {:induction false} ResolvedDirectory(base: Path, name: Name)
    requires Normal(name)
    ensures Resolved(base, name + [""]) == base + name
    decreases |name|
  {
    if name == [] {
      assert [""][1..] == [];
    } else {
      assert (name + [""])[1..] == name[1..] + [""];
      ResolvedDirectory(base + [name[0]], name[1..]);
      assert base + [name[0]] + name[1..] == base + name;
    }
  }

  // --- packing -----------------------------------------------------------------------------------------

  /** The files of the workspace in listing order, unless they are over the upload cap. */
  function Packed(names: seq<Name>, tree: map<Name, Data>): Option<seq<Member>>
    requires forall i :: 0 <= i < |names| ==> names[i] in tree
  {
    if Size(names, tree) > MAX_UPLOAD then None else Some(Archive([], names, tree))
  }

  method PackWorkspace(names: seq<Name>, tree: map<Name, Data>) returns (archive: Option<seq<Member>>)
    requires forall i :: 0 <= i < |names| ==> names[i] in tree
    ensures archive == Packed(names, tree)
  {
    var total: nat := 0;
    var members: seq<Member> := [];
    for i := 0 to |names|
      invariant total == Size(names[..i], tree) && total <= MAX_UPLOAD
      invariant members == Archive([], names[..i], tree)
    {
      assert names[..i + 1][..i] == names[..i];
      total := total + |tree[names[i]]|;
      if total > MAX_UPLOAD {
        SizeGrows(names, tree, i + 1);
        return None;
      }
      members := members + [Member(names[i], File, tree[names[i]])];
      assert [] + names[i] == names[i];
    }
    assert names[..|names|] == names;
    archive := Some(members);
  }

  lemma {:induction false} SizeGrows(names: seq<Name>, tree: map<Name, Data>, n: nat)
    requires n <= |names| && forall i :: 0 <= i < |names| ==> names[i] in tree
    ensures Size(names[..n], tree) <= Size(names, tree)
    decreases |names|
  {
    if n < |names| {
      SizeGrows(names[..|names| - 1], tree, n);
      assert names[..|names| - 1][..n] == names[..n];
    } else {
      assert names[..n] == names;
    }
  }

  // --- the round trip ------------------------------------------------------------------------------------

  /** Every file written is some listed file, stripped. */
  ghost predicate Strips(ws: Path, root: Comp, names: seq<Name>, left: map<Path, Data>) {
    forall d | d in left :: exists n :: n in names && d == ws + Stripped(root, n)
  }

  lemma StripsMore(ws: Path, root: Comp, names: seq<Name>, left: map<Path, Data>, data: Data)
    requires names != [] && Strips(ws, root, names[..|names| - 1], left)
    ensures Strips(ws, root, names, left[ws + Stripped(root, names[|names| - 1]) := data])
  {
    var last := names[|names| - 1];
    assert names == names[..|names| - 1] + [last];
    var more := left[ws + Stripped(root, last) := data];
    forall d | d in more ensures exists n :: n in names && d == ws + Stripped(root, n) {
      if d == ws + Stripped(root, last) {
        assert last in names;
      } else {
        var n :| n in names[..|names| - 1] && d == ws + Stripped(root, n);
        assert n in names;
      }
    }
  }

  /** Where the files of a packed archive end up. */
  lemma {:induction false} PackedDests(ws: Path, names: seq<Name>, tree: map<Name, Data>)
    requires Dir(tree) && forall i :: 0 <= i < |names| ==> names[i] in tree
    ensures Named(Archive([], names, tree))
    ensures var p := ExtractAll(ws, Archive([], names, tree));
      p.Going? && names != [] ==> p.s.root == Some(names[0][0]) && Strips(ws, names[0][0], names, p.s.tree)
    ensures var p := ExtractAll(ws, Archive([], names, tree)); p.Going? ==> p.s.files == |names|
    ensures names == [] ==> ExtractAll(ws, Archive([], names, tree)) == Going(State(0, 0, None, map[]))
    decreases |names|
  {
    if names != [] {
      var rest, n := names[..|names| - 1], names[|names| - 1];
      PackedDests(ws, rest, tree);
      ExtractLast(ws, [], names, tree);
      assert [] + n == n;
      var before, p := ExtractAll(ws, Archive([], rest, tree)), ExtractAll(ws, Archive([], names, tree));
      if p.Going? {
        var s := before.s;
        assert p == ExtractOne(ws, s, Member(n, File, tree[n]));
        var root := names[0][0];
        assert s.root == if rest == [] then None else Some(root);
        assert rest == [] ==> n == names[0];
        FileWent(ws, s, Member(n, File, tree[n]), root);
        NormalUnder(ws, Stripped(root, n));
        StripsMore(ws, root, names, s.tree, tree[n]);
      }
    }
  }

  /** Among the names that start with a directory there is one of greatest length. */
  lemma {:induction false} LongestUnder(root: Comp, names: seq<Name>) returns (n: Name)
    requires exists m :: m in names && |m| >= 2 && m[0] == root
    ensures n in names && |n| >= 2 && n[0] == root
    ensures forall m | m in names && |m| >= 2 && m[0] == root :: |m| <= |n|
    decreases |names|
  {
    var rest, last := names[..|names| - 1], names[|names| - 1];
    if exists m :: m in rest && |m| >= 2 && m[0] == root {
      n := LongestUnder(root, rest);
      if |last| >= 2 && last[0] == root && |last| > |n| { n := last; }
    } else {
      n := last;
    }
    assert forall m | m in names :: m in rest || m == last;
  }

  lemma LongestIsNoDest(root: Comp, names: seq<Name>, n: Name, m: Name)
    requires m in names && |n| >= 2 && n[0] == root
    requires forall k | k in names && |k| >= 2 && k[0] == root :: |k| <= |n|
    ensures Stripped(root, m) != n
  {
  }

  /** If the first file is in a directory, the file deepest under that directory's name is
      not where it was. */
  lemma StrippedDiffers(ws: Path, names: seq<Name>, tree: map<Name, Data>, left: map<Path, Data>)
    requires Dir(tree) && Lists(names, tree) && names != [] && |names[0]| >= 2
    requires Strips(ws, names[0][0], names, left)
    ensures !Placed(ws, tree, left)
  {
    var root := names[0][0];
    assert names[0] in names;
    var n := LongestUnder(root, names);
    if ws + n in left {
      var m :| m in names && ws + n == ws + Stripped(root, m);
      SameEnd(ws, Stripped(root, m), n);
      LongestIsNoDest(root, names, n, m);
    } else {
      assert n in tree;
    }
  }

  lemma TopLevelStays(first: Name, n: Name)
    requires |first| == 1 && n != [] && !(first < n)
    ensures Stripped(first[0], [] + n) == n
  {
    assert [] + n == n;
    if n[0] == first[0] { assert first == n[..1]; }
  }

  lemma TopLevelTakes(names: seq<Name>, tree: map<Name, Data>)
    requires Dir(tree) && Lists(names, tree) && (names == [] || |names[0]| == 1)
    ensures Takes(if names == [] then "" else names[0][0], [], tree)
  {
    forall n | n in tree ensures [] + n != [] && Stripped(if names == [] then "" else names[0][0], [] + n) == n {
      assert n in names;
      TopLevelStays(names[0], n);
    }
  }

  lemma TopLevelComesBack(ws: Path, names: seq<Name>, tree: map<Name, Data>)
    requires Dir(tree) && Lists(names, tree) && (names == [] || |names[0]| == 1) && Fits(names, tree)
    ensures Named(Archive([], names, tree))
    ensures var p := ExtractAll(ws, Archive([], names, tree)); p.Going? && Placed(ws, tree, p.s.tree)
  {
    TopLevelTakes(names, tree);
    assert names != [] ==> [] + names[0] == names[0];
    ExtractPlaces(ws, [], if names == [] then "" else names[0][0], names, tree);
    assert Part(names, tree) == tree;
  }

  lemma TooManyRaise(ws: Path, names: seq<Name>, tree: map<Name, Data>)
    requires Dir(tree) && forall i :: 0 <= i < |names| ==> names[i] in tree
    requires |names| > MAX_FILES
    ensures Named(Archive([], names, tree)) && ExtractAll(ws, Archive([], names, tree)).Raised?
  {
    PackedDests(ws, names, tree);
    if ExtractAll(ws, Archive([], names, tree)).Going? { CapsKept(ws, Archive([], names, tree)); }
  }

  ghost predicate ComesBack(ws: Path, raw: nat, names: seq<Name>, tree: map<Name, Data>)
    requires forall i :: 0 <= i < |names| ==> names[i] in tree
  {
    && Packed(names, tree).Some? && Named(Packed(names, tree).value)
    && var p := Extracted(ws, raw, Packed(names, tree).value);
    p.Going? && Placed(ws, tree, p.s.tree)
  }

  /** Extracting what was packed gives the workspace back exactly when everything is within
      the caps and the first file listed is not in a directory. */
  lemma RoundTrip(ws: Path, raw: nat, names: seq<Name>, tree: map<Name, Data>)
    requires Dir(tree) && Lists(names, tree)
    ensures ComesBack(ws, raw, names, tree)
      <==> Size(names, tree) <= MAX_UPLOAD && raw <= MAX_TARBALL && |names| <= MAX_FILES
           && (names == [] || |names[0]| == 1)
  {
    if Size(names, tree) <= MAX_UPLOAD && raw <= MAX_TARBALL {
      if |names| > MAX_FILES {
        TooManyRaise(ws, names, tree);
      } else if names == [] || |names[0]| == 1 {
        TopLevelComesBack(ws, names, tree);
      } else {
        PackedDests(ws, names, tree);
        var p := ExtractAll(ws, Archive([], names, tree));
        if p.Going? { StrippedDiffers(ws, names, tree, p.s.tree); }
      }
    }
  }
}
