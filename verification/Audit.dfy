/** The hash-chained audit log, over a digest of fixed length that does not collide on the
    materials at hand. */
module Audit {
  import opened Basics
  import opened Text

  datatype Row = Row(
    ts: string, actor: string, action: string, subject: string, details: string,
    prev: Option<string>, entry: Option<string>)

  function Body(r: Row): string {
    r.ts + "|" + r.actor + "|" + r.action + "|" + r.subject + "|" + r.details
  }

  function OrEmpty(prev: Option<string>): string { if prev.Some? then prev.value else "" }

  function Material(prev: Option<string>, r: Row): string { OrEmpty(prev) + "|" + Body(r) }

  function LastHash(rows: seq<Row>): Option<string> { if rows == [] then None else rows[|rows| - 1].entry }

  predicate Linked(h: string -> string, prev: Option<string>, r: Row) {
    r.entry == Some(h(Material(prev, r))) && r.prev == prev
  }

  predicate Verified(h: string -> string, rows: seq<Row>) {
    rows == [] ||
    (Verified(h, rows[..|rows| - 1]) && Linked(h, LastHash(rows[..|rows| - 1]), rows[|rows| - 1]))
  }

  function Chained(h: string -> string, prev: Option<string>, r: Row): Row {
    r.(prev := prev, entry := Some(h(Material(prev, r))))
  }

  /** Rows that carry no hash yet are chained in turn; the others are left alone. */
  function Filled(h: string -> string, prev: Option<string>, rows: seq<Row>): (r: seq<Row>)
    ensures |r| == |rows|
    decreases |rows|
  {
    if rows == [] then []
    else if rows[0].entry.Some? then [rows[0]] + Filled(h, prev, rows[1..])
    else
      var r := Chained(h, prev, rows[0]);
      [r] + Filled(h, r.entry, rows[1..])
  }

  /** How many rows come before the first without a hash. */
  function Leading(rows: seq<Row>): (n: nat)
    ensures n <= |rows| && (forall i :: 0 <= i < n ==> rows[i].entry.Some?) && (n < |rows| ==> rows[n].entry.None?)
  {
    if rows == [] || rows[0].entry.None? then 0 else 1 + Leading(rows[1..])
  }

  function Backfilled(h: string -> string, rows: seq<Row>): seq<Row> {
    var n := Leading(rows);
    rows[..n] + Filled(h, LastHash(rows[..n]), rows[n..])
  }

  // --- the log in place ------------------------------------------------------------------

  class AuditLog {
    const hash: string -> string
    var rows: seq<Row>

    constructor (hash: string -> string)
      ensures this.hash == hash && rows == []
    {
      this.hash, rows := hash, [];
    }

    method RecordAudit(now: string, actor: string, action: string, subject: string, details: string)
      modifies this
      ensures rows
        == old(rows) + [Chained(hash, LastHash(old(rows)), Row(now, actor, action, subject, details, None, None))]
      ensures var prev := if old(rows) == [] then None else old(rows)[|old(rows)| - 1].entry;
        var text := now + "|" + actor + "|" + action + "|" + subject + "|" + details;
        rows == old(rows) + [Row(now, actor, action, subject, details, prev,
                                 Some(hash((if prev.None? then "" else prev.value) + "|" + text)))]
    {
      var prev := if rows == [] then None else rows[|rows| - 1].entry;
      var entry := hash(OrEmpty(prev) + "|" + (now + "|" + actor + "|" + action + "|" + subject + "|" + details));
      rows := rows + [Row(now, actor, action, subject, details, prev, Some(entry))];
    }

    /** True with the number of rows, or false with the index of the first bad row. */
    method VerifyAuditChain() returns (ok: bool, n: nat)
      ensures ok == Verified(hash, rows)
      ensures if ok then n == |rows|
              else n < |rows| && Verified(hash, rows[..n]) && !Verified(hash, rows[..n + 1])
    {
      var prev: Option<string> := None;
      n := 0;
      while n < |rows|
        invariant n <= |rows| && Verified(hash, rows[..n]) && prev == LastHash(rows[..n])
      {
        assert rows[..n + 1][..n] == rows[..n];
        var expected := hash(Material(prev, rows[n]));
        if rows[n].entry != Some(expected) || rows[n].prev != prev {
          assert !Verified(hash, rows[..n + 1]);
          assert !Verified(hash, rows) by {
            if Verified(hash, rows) { VerifiedPrefix(hash, rows, n + 1); }
          }
          ok := false;
          return;
        }
        prev := rows[n].entry;
        n := n + 1;
      }
      assert rows[..n] == rows;
      ok := true;
    }

    method BackfillAuditChain()
      modifies this
      ensures rows == Backfilled(hash, old(rows))
    {
      var first := 0;
      while first < |rows| && rows[first].entry.Some?
        invariant first <= Leading(rows)
      {
        first := first + 1;
      }
      var prev := if first == 0 then None else rows[first - 1].entry;
      var done, rest := rows[..first], rows[first..];
      ghost var all := Backfilled(hash, rows);
      while rest != []
        invariant done + Filled(hash, prev, rest) == all
        decreases |rest|
      {
        FilledStep(hash, prev, rest, done);
        if rest[0].entry.Some? {
          done := done + [rest[0]];
        } else {
          var chained := Chained(hash, prev, rest[0]);
          done, prev := done + [chained], chained.entry;
        }
        rest := rest[1..];
      }
      assert done + Filled(hash, prev, rest) == done;
      rows := done;
    }
  }

  lemma FilledStep(h: string -> string, prev: Option<string>, rows: seq<Row>, done: seq<Row>)
    requires rows != []
    ensures done + Filled(h, prev, rows) ==
      if rows[0].entry.Some? then (done + [rows[0]]) + Filled(h, prev, rows[1..])
      else (done + [Chained(h, prev, rows[0])]) + Filled(h, Chained(h, prev, rows[0]).entry, rows[1..])
  {
  }

  lemma {:induction false} VerifiedPrefix(h: string -> string, rows: seq<Row>, n: nat)
    requires n <= |rows| && Verified(h, rows)
    ensures Verified(h, rows[..n])
    decreases |rows|
  {
    if n < |rows| {
      VerifiedPrefix(h, rows[..|rows| - 1], n);
      assert rows[..|rows| - 1][..n] == rows[..n];
    } else {
      assert rows[..n] == rows;
    }
  }

  // --- appending and backfilling keep a table verified ------------------------------------------

  /** A verified table stays verified when a row is recorded. */
  lemma AppendKeepsVerified(h: string -> string, rows: seq<Row>, r: Row)
    requires Verified(h, rows)
    ensures Verified(h, rows + [Chained(h, LastHash(rows), r)])
  {
    assert (rows + [Chained(h, LastHash(rows), r)])[..|rows|] == rows;
  }

  /** Two rows with the same fields, whatever their hashes. */
  predicate SameFields(a: Row, b: Row) { b == a.(prev := b.prev, entry := b.entry) }

  lemma {:induction false} FilledVerifies(h: string -> string, done: seq<Row>, rest: seq<Row>)
    requires Verified(h, done) && forall i :: 0 <= i < |rest| ==> rest[i].entry.None?
    ensures Verified(h, done + Filled(h, LastHash(done), rest))
    decreases |rest|
  {
    if rest == [] {
      assert done + [] == done;
    } else {
      AppendKeepsVerified(h, done, rest[0]);
      FilledStep(h, LastHash(done), rest, done);
      FilledVerifies(h, done + [Chained(h, LastHash(done), rest[0])], rest[1..]);
    }
  }

  lemma {:induction false} FilledKeepsFields(h: string -> string, prev: Option<string>, rows: seq<Row>, i: nat)
    requires i < |rows|
    ensures SameFields(rows[i], Filled(h, prev, rows)[i])
    decreases |rows|
  {
    if i > 0 {
      FilledKeepsFields(h, if rows[0].entry.Some? then prev else Chained(h, prev, rows[0]).entry, rows[1..], i - 1);
    }
  }

  /** A row that carries a hash is never touched, so a tampered table is not repaired; and no row is
      left without one. */
  lemma {:induction false} FilledIs(h: string -> string, prev: Option<string>, rows: seq<Row>, i: nat)
    requires i < |rows|
    ensures var r := Filled(h, prev, rows)[i];
      r.entry.Some? && (rows[i].entry.Some? ==> r == rows[i])
    decreases |rows|
  {
    if i > 0 { FilledIs(h, if rows[0].entry.Some? then prev else Chained(h, prev, rows[0]).entry, rows[1..], i - 1); }
  }

  lemma BackfillKeepsHashed(h: string -> string, rows: seq<Row>, i: nat)
    requires i < |rows|
    ensures |Backfilled(h, rows)| == |rows|
    ensures Backfilled(h, rows)[i].entry.Some? && (rows[i].entry.Some? ==> Backfilled(h, rows)[i] == rows[i])
  {
    var n := Leading(rows);
    if i >= n { FilledIs(h, LastHash(rows[..n]), rows[n..], i - n); }
  }

  /** Backfilling a verified table followed by legacy rows gives a verified table with the
      same fields in every row. */
  lemma BackfillVerifies(h: string -> string, rows: seq<Row>)
    requires Verified(h, rows[..Leading(rows)])
    requires forall i :: Leading(rows) <= i < |rows| ==> rows[i].entry.None?
    ensures Verified(h, Backfilled(h, rows))
    ensures |Backfilled(h, rows)| == |rows|
      && forall i :: 0 <= i < |rows| ==> SameFields(rows[i], Backfilled(h, rows)[i])
  {
    var n := Leading(rows);
    FilledVerifies(h, rows[..n], rows[n..]);
    forall i | n <= i < |rows| ensures SameFields(rows[i], Backfilled(h, rows)[i]) {
      FilledKeepsFields(h, LastHash(rows[..n]), rows[n..], i - n);
    }
  }

  // --- what a verified table proves ----------------------------------------------------------------

  /** Digests have one length and no separator in them. */
  ghost predicate Digest(h: string -> string, length: nat) {
    length > 0 && forall m :: |h(m)| == length && '|' !in h(m)
  }

  ghost predicate CollisionFree(h: string -> string, materials: set<string>) {
    forall a, b | a in materials && b in materials && h(a) == h(b) :: a == b
  }

  /** What the rows of a table were hashed from. */
  function Materials(rows: seq<Row>): set<string> {
    set i | 0 <= i < |rows| :: Material(rows[i].prev, rows[i])
  }

  predicate HasLength(prev: Option<string>, length: nat) {
    prev.Some? ==> |prev.value| == length && '|' !in prev.value
  }

  /** A material tells its previous hash from its body. */
  lemma MaterialSplits(p: Option<string>, q: Option<string>, r: Row, s: Row, length: nat)
    requires length > 0 && HasLength(p, length) && HasLength(q, length)
    requires Material(p, r) == Material(q, s)
    ensures p == q && Body(r) == Body(s)
  {
    PlainHead(OrEmpty(p), OrEmpty(q), Body(r), Body(s));
  }

  /** What is known of row `i` of a verified table. */
  lemma {:induction false} RowLinked(h: string -> string, rows: seq<Row>, length: nat, i: nat)
    requires Verified(h, rows) && Digest(h, length) && i < |rows|
    ensures rows[i].prev == (if i == 0 then None else rows[i - 1].entry)
    ensures rows[i].entry == Some(h(Material(rows[i].prev, rows[i])))
      && Material(rows[i].prev, rows[i]) in Materials(rows)
    ensures HasLength(rows[i].prev, length)
  {
    VerifiedPrefix(h, rows, i + 1);
    VerifiedPrefix(h, rows, i);
    assert rows[..i + 1][..i] == rows[..i];
    if i > 0 {
      VerifiedPrefix(h, rows[..i], i);
      assert rows[..i][..i - 1] == rows[..i - 1] && rows[..i][i - 1] == rows[i - 1];
    }
  }

  lemma SameHashSameRow(h: string -> string, a: seq<Row>, b: seq<Row>, length: nat, i: nat, j: nat)
    requires Verified(h, a) && Verified(h, b) && Digest(h, length) && i < |a| && j < |b|
    requires CollisionFree(h, Materials(a) + Materials(b)) && a[i].entry == b[j].entry
    ensures a[i].prev == b[j].prev && Body(a[i]) == Body(b[j])
  {
    RowLinked(h, a, length, i);
    RowLinked(h, b, length, j);
    MaterialSplits(a[i].prev, b[j].prev, a[i], b[j], length);
  }

  predicate SameHashed(r: Row, s: Row) { Body(r) == Body(s) && r.prev == s.prev && r.entry == s.entry }

  /** Row `i` names the hash of the row before it. */
  predicate LinksBack(rows: seq<Row>, i: nat)
    requires i < |rows|
  {
    rows[i].entry.Some? && rows[i].prev == if i == 0 then None else rows[i - 1].entry
  }

  predicate Chain(rows: seq<Row>) {
    forall i :: 0 <= i < |rows| ==> LinksBack(rows, i)
  }

  /** Rows with the same entry hash were hashed from the same text. */
  predicate Apart(a: seq<Row>, b: seq<Row>) {
    forall i, j :: 0 <= i < |a| && 0 <= j < |b| && a[i].entry == b[j].entry ==> SameHashed(a[i], b[j])
  }

  lemma VerifiedChain(h: string -> string, rows: seq<Row>, length: nat)
    requires Verified(h, rows) && Digest(h, length)
    ensures Chain(rows)
  {
    forall i | 0 <= i < |rows| ensures LinksBack(rows, i) {
      RowLinked(h, rows, length, i);
    }
  }

  lemma VerifiedApart(h: string -> string, a: seq<Row>, b: seq<Row>, length: nat)
    requires Verified(h, a) && Verified(h, b) && Digest(h, length) && CollisionFree(h, Materials(a) + Materials(b))
    ensures Apart(a, b)
  {
    forall i, j | 0 <= i < |a| && 0 <= j < |b| && a[i].entry == b[j].entry ensures SameHashed(a[i], b[j]) {
      SameHashSameRow(h, a, b, length, i, j);
    }
  }

  lemma PrevIs(rows: seq<Row>, i: nat)
    requires Chain(rows) && i < |rows|
    ensures rows[i].entry.Some?
    ensures if i == 0 then rows[i].prev.None? else rows[i].prev.Some? && rows[i].prev == rows[i - 1].entry
  {
    assert LinksBack(rows, i) && (i > 0 ==> LinksBack(rows, i - 1));
  }

  /** Two chains that agree on one entry hash agree on everything before it. */
  lemma {:induction false} SamePast(a: seq<Row>, b: seq<Row>, i: nat, j: nat)
    requires Chain(a) && Chain(b) && Apart(a, b) && i < |a| && j < |b| && a[i].entry == b[j].entry
    ensures i == j && forall k :: 0 <= k <= i ==> SameHashed(a[k], b[k])
    decreases i
  {
    assert SameHashed(a[i], b[j]);
    PrevIs(a, i);
    PrevIs(b, j);
    if i > 0 { SamePast(a, b, i - 1, j - 1); }
  }

  lemma HeadFixesChain(a: seq<Row>, b: seq<Row>)
    requires Chain(a) && Chain(b) && Apart(a, b) && LastHash(a) == LastHash(b)
    ensures |a| == |b| && forall k :: 0 <= k < |a| ==> SameHashed(a[k], b[k])
  {
    if a != [] { PrevIs(a, |a| - 1); }
    if b != [] { PrevIs(b, |b| - 1); }
    if a != [] { SamePast(a, b, |a| - 1, |b| - 1); }
  }

  lemma HashesDistinctInChain(rows: seq<Row>, i: nat, j: nat)
    requires Chain(rows) && Apart(rows, rows) && i < |rows| && j < |rows| && rows[i].entry == rows[j].entry
    ensures i == j
  {
    SamePast(rows, rows, i, j);
  }

  lemma OnlyOnePrev(rows: seq<Row>, n: nat, m: nat)
    requires Chain(rows) && Apart(rows, rows) && n <= |rows| && m < |rows|
    ensures rows[m].prev == LastHash(rows[..n]) <==> m == n
  {
    PrevIs(rows, m);
    if n > 0 { PrevIs(rows, n - 1); }
    assert LastHash(rows[..n]) == if n == 0 then None else rows[n - 1].entry;
    if n > 0 && m > 0 && rows[m - 1].entry == rows[n - 1].entry { HashesDistinctInChain(rows, m - 1, n - 1); }
  }

  lemma VerifiedAlone(h: string -> string, rows: seq<Row>, length: nat)
    requires Verified(h, rows) && Digest(h, length) && CollisionFree(h, Materials(rows))
    ensures Chain(rows) && Apart(rows, rows)
  {
    assert Materials(rows) + Materials(rows) == Materials(rows);
    VerifiedChain(h, rows, length);
    VerifiedApart(h, rows, rows, length);
  }

  /** The head hash fixes the whole table: two verified tables that end in the same entry
      hash have the same length and the same row bodies. */
  lemma HeadFixesTable(h: string -> string, a: seq<Row>, b: seq<Row>, length: nat)
    requires Verified(h, a) && Verified(h, b) && Digest(h, length) && CollisionFree(h, Materials(a) + Materials(b))
    requires LastHash(a) == LastHash(b)
    ensures |a| == |b| && forall k :: 0 <= k < |a| ==> SameHashed(a[k], b[k])
  {
    VerifiedChain(h, a, length);
    VerifiedChain(h, b, length);
    VerifiedApart(h, a, b, length);
    HeadFixesChain(a, b);
  }

  /** All entry hashes of a verified table are distinct. */
  lemma HashesDistinct(h: string -> string, rows: seq<Row>, length: nat, i: nat, j: nat)
    requires Verified(h, rows) && Digest(h, length) && CollisionFree(h, Materials(rows))
    requires i < |rows| && j < |rows| && rows[i].entry == rows[j].entry
    ensures i == j
  {
    VerifiedAlone(h, rows, length);
    HashesDistinctInChain(rows, i, j);
  }

  // --- tampering --------------------------------------------------------------------------------------

  predicate InPlace(at: seq<nat>) { forall k :: 0 <= k < |at| ==> at[k] == k }

  /** After the first `n` rows in place, only row `n` links. */
  lemma OnlyTheNextLinks(h: string -> string, rows: seq<Row>, length: nat, n: nat, m: nat)
    requires Verified(h, rows) && Digest(h, length) && CollisionFree(h, Materials(rows)) && n <= |rows| && m < |rows|
    ensures Linked(h, LastHash(rows[..n]), rows[m]) <==> m == n
  {
    RowLinked(h, rows, length, m);
    VerifiedAlone(h, rows, length);
    OnlyOnePrev(rows, n, m);
  }

  /** A table put together from rows of a verified one, by deleting, repeating or moving
      rows, verifies only if it is a beginning of that table.  `at` says which row of the
      original each row is. */
  lemma {:induction false} OnlyPrefixesVerify(
      h: string -> string, rows: seq<Row>, at: seq<nat>, built: seq<Row>, length: nat)
    requires Verified(h, rows) && Digest(h, length) && CollisionFree(h, Materials(rows))
    requires |built| == |at| && forall k :: 0 <= k < |at| ==> at[k] < |rows| && built[k] == rows[at[k]]
    ensures Verified(h, built) <==> InPlace(at)
    decreases |at|
  {
    if built != [] {
      var n := |at| - 1;
      OnlyPrefixesVerify(h, rows, at[..n], built[..n], length);
      InPlaceStep(at);
      if InPlace(at[..n]) {
        PlacesFit(rows, at[..n], built[..n]);
        OnlyTheNextLinks(h, rows, length, n, at[n]);
        assert Linked(h, LastHash(built[..n]), built[n]) <==> at[n] == n;
      }
    }
  }

  lemma InPlaceStep(at: seq<nat>)
    requires at != []
    ensures InPlace(at) <==> InPlace(at[..|at| - 1]) && at[|at| - 1] == |at| - 1
  {
    var before := at[..|at| - 1];
    if InPlace(before) && at[|at| - 1] == |at| - 1 {
      forall k | 0 <= k < |at| ensures at[k] == k {
        if k < |before| { assert before[k] == k; }
      }
    }
  }

  lemma PlacesFit(rows: seq<Row>, at: seq<nat>, built: seq<Row>)
    requires |built| == |at| && InPlace(at) && forall k :: 0 <= k < |at| ==> at[k] < |rows| && built[k] == rows[at[k]]
    ensures |at| <= |rows| && built == rows[..|at|]
  {
    if at != [] { assert at[|at| - 1] == |at| - 1; }
  }

  /** The places left when row `i` of `n` is deleted. */
  function Skipping(n: nat, i: nat): seq<nat>
    requires i < n
  {
    seq(n - 1, k requires 0 <= k => if k < i then k else k + 1)
  }

  lemma SkippingMoves(n: nat, i: nat)
    requires i < n
    ensures InPlace(Skipping(n, i)) <==> i == n - 1
  {
    if i < n - 1 { assert Skipping(n, i)[i] == i + 1; }
  }

  lemma SkippingBuilds(rows: seq<Row>, i: nat)
    requires i < |rows|
    ensures var at, built := Skipping(|rows|, i), rows[..i] + rows[i + 1..];
      |built| == |at| && forall k :: 0 <= k < |at| ==> at[k] < |rows| && built[k] == rows[at[k]]
  {
  }

  /** Deleting one row is detected unless it is the last one. */
  lemma DeletionDetected(h: string -> string, rows: seq<Row>, length: nat, i: nat)
    requires Verified(h, rows) && Digest(h, length) && CollisionFree(h, Materials(rows)) && i < |rows|
    ensures Verified(h, rows[..i] + rows[i + 1..]) <==> i == |rows| - 1
  {
    SkippingBuilds(rows, i);
    SkippingMoves(|rows|, i);
    OnlyPrefixesVerify(h, rows, Skipping(|rows|, i), rows[..i] + rows[i + 1..], length);
  }

  /** Editing a row's fields in place is detected unless the text hashed is the same. */
  lemma EditDetected(h: string -> string, rows: seq<Row>, length: nat, i: nat, r: Row)
    requires Verified(h, rows) && Digest(h, length) && i < |rows|
    requires r.prev == rows[i].prev && r.entry == rows[i].entry
    requires CollisionFree(h, Materials(rows) + Materials(rows[i := r]))
    ensures Verified(h, rows[i := r]) <==> Body(r) == Body(rows[i])
  {
    var edited := rows[i := r];
    if Verified(h, edited) {
      SameHashSameRow(h, edited, rows, length, i, i) by {
        assert Materials(edited) + Materials(rows) == Materials(rows) + Materials(edited);
      }
    }
    if Body(r) == Body(rows[i]) { SameBodiesVerify(h, rows, edited); }
  }

  lemma {:induction false} SameBodiesVerify(h: string -> string, a: seq<Row>, b: seq<Row>)
    requires Verified(h, a) && |a| == |b|
    requires forall k :: 0 <= k < |a| ==> Body(a[k]) == Body(b[k]) && a[k].prev == b[k].prev && a[k].entry == b[k].entry
    ensures Verified(h, b)
    decreases |a|
  {
    if a != [] {
      var n := |a| - 1;
      SameBodiesVerify(h, a[..n], b[..n]);
      assert LastHash(a[..n]) == LastHash(b[..n]);
      assert Material(a[n].prev, a[n]) == Material(b[n].prev, b[n]);
    }
  }

  // --- bodies and fields --------------------------------------------------------------------------------

  /** Equal bodies are equal fields, as long as only the details contain the separator. */
  lemma BodyFixesFields(r: Row, s: Row)
    requires Plain(r.ts) && Plain(r.actor) && Plain(r.action) && Plain(r.subject)
    requires Plain(s.ts) && Plain(s.actor) && Plain(s.action) && Plain(s.subject)
    requires Body(r) == Body(s)
    ensures r == s.(prev := r.prev, entry := r.entry)
  {
    var r4, s4 := r.subject + "|" + r.details, s.subject + "|" + s.details;
    var r3, s3 := r.action + "|" + r4, s.action + "|" + s4;
    var r2, s2 := r.actor + "|" + r3, s.actor + "|" + s3;
    assert Body(r) == r.ts + "|" + r2 && Body(s) == s.ts + "|" + s2;
    PlainHead(r.ts, s.ts, r2, s2);
    PlainHead(r.actor, s.actor, r3, s3);
    PlainHead(r.action, s.action, r4, s4);
    PlainHead(r.subject, s.subject, r.details, s.details);
  }

  /** Without that the join is ambiguous: a separator can move between two fields. */
  lemma JoinIsAmbiguous()
    ensures exists r: Row, s: Row :: Body(r) == Body(s) && r.actor != s.actor && r.action != s.action
  {
    var r := Row("t", "a|b", "c", "d", "e", None, None);
    var s := Row("t", "a", "b|c", "d", "e", None, None);
    assert Body(r) == "t|a|b|c|d|e" == Body(s);
    assert r.actor != s.actor && |r.action| != |s.action|;
  }
}
