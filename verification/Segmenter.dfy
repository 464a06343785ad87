/** Cutting a raw payload into events: line by line, except that a traceback is one event. */
module Segmenter {
  import opened Text

  /** What the reader of one stripped line says: an event, with its own id if it carries one
      and the text its id is made from otherwise, or a dead letter, which is cut short when a
      field could not be coerced. */
  datatype Reading = Record(id: string, canonical: string) | Unreadable(cut: bool)

  /** The parts that depend on library semantics: what counts as white space, how a line that
      is not a traceback head is read, and the digest ids are cut from. */
  datatype Reader = Reader(space: char -> bool, read: string -> Reading, hash: string -> string)

  datatype Context = Context(service: string, source: string, delivery: string)

  const HEAD := "Traceback (most recent call last):"
  const DEAD_LETTER_MAX: nat := 65536

  function Prefix(ctx: Context): string { ctx.service + "|" + ctx.source + "|" + ctx.delivery + "|" }

  function Material(ctx: Context, index: nat, line: string): string {
    Prefix(ctx) + (Decimal(index) + "|" + line)
  }

  function StableId(rd: Reader, ctx: Context, index: nat, line: string): string {
    var digest := rd.hash(Material(ctx, index, line));
    "evt-" + (if |digest| < 16 then digest else digest[..16])
  }

  function StripLeft(rd: Reader, s: string): string {
    if s != "" && rd.space(s[0]) then StripLeft(rd, s[1..]) else s
  }

  function StripRight(rd: Reader, s: string): string {
    if s != "" && rd.space(s[|s| - 1]) then StripRight(rd, s[..|s| - 1]) else s
  }

  function Strip(rd: Reader, s: string): string { StripRight(rd, StripLeft(rd, s)) }

  predicate IsHead(s: string) { HEAD <= s }

  predicate Indented(rd: Reader, s: string) { s != "" && rd.space(s[0]) }

  function Join(lines: seq<string>): string
    requires lines != []
  {
    if |lines| == 1 then lines[0] else Join(lines[..|lines| - 1]) + "\n" + lines[|lines| - 1]
  }

  // --- spans ---------------------------------------------------------------------------------

  datatype Outcome =
    | Skipped
    | Event(id: string, generated: bool, canonical: string, message: string)
    | DeadLetter(line: string)

  /** Lines [start, stop) of the payload, and what became of them. */
  datatype Span = Span(start: nat, stop: nat, outcome: Outcome)

  /** The first line from `index` on that is not indented. */
  function FramesEnd(rd: Reader, lines: seq<string>, index: nat): (r: nat)
    requires index <= |lines|
    ensures index <= r <= |lines|
    ensures forall i :: index <= i < r ==> Indented(rd, lines[i])
    ensures r < |lines| ==> !Indented(rd, lines[r])
    decreases |lines| - index
  {
    if index < |lines| && Indented(rd, lines[index]) then FramesEnd(rd, lines, index + 1) else index
  }

  /** A block takes its indented frames and the line that closes it, unless that line is the
      head of the next traceback. */
  function BlockEnd(rd: Reader, lines: seq<string>, start: nat): (r: nat)
    requires start < |lines|
    ensures start < r <= |lines|
  {
    var end := FramesEnd(rd, lines, start + 1);
    if end < |lines| && !IsHead(lines[end]) then end + 1 else end
  }

  function TextEvent(rd: Reader, ctx: Context, index: nat, message: string): Outcome {
    var canonical := Strip(rd, message);
    Event(StableId(rd, ctx, index, canonical), true, canonical, message)
  }

  function Shortened(line: string, cut: bool): string { if cut && |line| > 200 then line[..200] else line }

  function SpanAt(rd: Reader, ctx: Context, lines: seq<string>, i: nat): (sp: Span)
    requires i < |lines|
    ensures sp.start == i < sp.stop <= |lines|
  {
    var stripped := Strip(rd, lines[i]);
    if stripped == "" then Span(i, i + 1, Skipped)
    else if |stripped| > DEAD_LETTER_MAX then Span(i, i + 1, DeadLetter(stripped[..200]))
    else if IsHead(stripped) then
      var stop := BlockEnd(rd, lines, i);
      Span(i, stop, TextEvent(rd, ctx, i, Join(lines[i..stop])))
    else
      match rd.read(stripped)
      case Unreadable(cut) => Span(i, i + 1, DeadLetter(Shortened(stripped, cut)))
      case Record(id, canonical) =>
        Span(i, i + 1,
             if id != "" then Event(id, false, canonical, stripped)
             else Event(StableId(rd, ctx, i, canonical), true, canonical, stripped))
  }

  function Spans(rd: Reader, ctx: Context, lines: seq<string>, i: nat): seq<Span>
    requires i <= |lines|
    decreases |lines| - i
  {
    if i == |lines| then []
    else
      var sp := SpanAt(rd, ctx, lines, i);
      [sp] + Spans(rd, ctx, lines, sp.stop)
  }

  function EventsOf(spans: seq<Span>): seq<Outcome> {
    if spans == [] then []
    else
      EventsOf(spans[..|spans| - 1])
      + (if spans[|spans| - 1].outcome.Event? then [spans[|spans| - 1].outcome] else [])
  }

  function DeadOf(spans: seq<Span>): seq<Outcome> {
    if spans == [] then []
    else
      DeadOf(spans[..|spans| - 1])
      + (if spans[|spans| - 1].outcome.DeadLetter? then [spans[|spans| - 1].outcome] else [])
  }

  // --- the loops --------------------------------------------------------------------------------

  method ReassembleTraceback(rd: Reader, lines: seq<string>, start: nat) returns (block: string, next: nat)
    requires start < |lines|
    ensures next == BlockEnd(rd, lines, start) && block == Join(lines[start..next])
  {
    block, next := lines[start], start + 1;
    while next < |lines| && Indented(rd, lines[next])
      invariant start < next <= |lines| && block == Join(lines[start..next])
      invariant FramesEnd(rd, lines, next) == FramesEnd(rd, lines, start + 1)
    {
      assert lines[start..next + 1][..next - start] == lines[start..next];
      block := block + "\n" + lines[next];
      next := next + 1;
    }
    if next < |lines| && !IsHead(lines[next]) {
      assert lines[start..next + 1][..next - start] == lines[start..next];
      block := block + "\n" + lines[next];
      next := next + 1;
    }
  }

  /** One turn of the loop: what becomes of the line, and where reading goes on. */
  method ReadOne(rd: Reader, ctx: Context, lines: seq<string>, number: nat) returns (outcome: Outcome, index: nat)
    requires number < |lines|
    ensures Span(number, index, outcome) == SpanAt(rd, ctx, lines, number)
  {
    index := number + 1;
    var stripped := Strip(rd, lines[number]);
    if stripped == "" { return Skipped, index; }
    if |stripped| > DEAD_LETTER_MAX { return DeadLetter(stripped[..200]), index; }
    if IsHead(stripped) {
      var block;
      block, index := ReassembleTraceback(rd, lines, number);
      return TextEvent(rd, ctx, number, block), index;
    }
    match rd.read(stripped) {
      case Unreadable(cut) =>
        outcome := DeadLetter(if cut && |stripped| > 200 then stripped[..200] else stripped);
      case Record(id, canonical) =>
        outcome := if id != "" then Event(id, false, canonical, stripped)
                   else Event(StableId(rd, ctx, number, canonical), true, canonical, stripped);
    }
  }

  method ParseEvents(rd: Reader, ctx: Context, lines: seq<string>) returns (events: seq<Outcome>, dead: seq<Outcome>)
    ensures events == EventsOf(Spans(rd, ctx, lines, 0)) && dead == DeadOf(Spans(rd, ctx, lines, 0))
  {
    events, dead := [], [];
    var index := 0;
    ghost var done: seq<Span> := [];
    while index < |lines|
      invariant index <= |lines| && done + Spans(rd, ctx, lines, index) == Spans(rd, ctx, lines, 0)
      invariant events == EventsOf(done) && dead == DeadOf(done)
      decreases |lines| - index
    {
      ghost var sp := SpanAt(rd, ctx, lines, index);
      var outcome;
      outcome, index := ReadOne(rd, ctx, lines, index);
      if outcome.Event? { events := events + [outcome]; }
      if outcome.DeadLetter? { dead := dead + [outcome]; }
      OneMoreSpan(done, sp, Spans(rd, ctx, lines, index));
      done := done + [sp];
    }
    assert done + [] == done;
  }

  lemma OneMoreSpan(done: seq<Span>, sp: Span, rest: seq<Span>)
    ensures done + ([sp] + rest) == (done + [sp]) + rest
    ensures EventsOf(done + [sp]) == if sp.outcome.Event? then EventsOf(done) + [sp.outcome] else EventsOf(done)
    ensures DeadOf(done + [sp]) == if sp.outcome.DeadLetter? then DeadOf(done) + [sp.outcome] else DeadOf(done)
  {
    assert (done + [sp])[..|done|] == done;
    assert EventsOf(done) + [] == EventsOf(done) && DeadOf(done) + [] == DeadOf(done);
  }

  // --- what the spans are -----------------------------------------------------------------------

  /** The spans tile the lines from `from` to `to`, in order and without gaps or overlaps. */
  predicate Tiles(spans: seq<Span>, from: nat, to: nat) {
    if spans == [] then from == to
    else spans[0].start == from && from < spans[0].stop && Tiles(spans[1..], spans[0].stop, to)
  }

  lemma {:induction false} SpansTile(rd: Reader, ctx: Context, lines: seq<string>, i: nat)
    requires i <= |lines|
    ensures Tiles(Spans(rd, ctx, lines, i), i, |lines|)
    decreases |lines| - i
  {
    if i < |lines| { SpansTile(rd, ctx, lines, SpanAt(rd, ctx, lines, i).stop); }
  }

  lemma {:induction false} SpansAreSpans(rd: Reader, ctx: Context, lines: seq<string>, i: nat, k: nat)
    requires i <= |lines| && k < |Spans(rd, ctx, lines, i)|
    ensures var sp := Spans(rd, ctx, lines, i)[k]; i <= sp.start < |lines| && sp == SpanAt(rd, ctx, lines, sp.start)
    decreases |lines| - i
  {
    if k > 0 { SpansAreSpans(rd, ctx, lines, SpanAt(rd, ctx, lines, i).stop, k - 1); }
  }

  lemma {:induction false} TilesInOrder(spans: seq<Span>, from: nat, to: nat, j: nat, k: nat)
    requires Tiles(spans, from, to) && j < k < |spans|
    ensures from <= spans[j].start < spans[j].stop <= spans[k].start < spans[k].stop <= to
    decreases |spans|
  {
    if j > 0 {
      TilesInOrder(spans[1..], spans[0].stop, to, j - 1, k - 1);
    } else {
      TilesFrom(spans[1..], spans[0].stop, to, k - 1);
    }
  }

  lemma {:induction false} TilesFrom(spans: seq<Span>, from: nat, to: nat, k: nat)
    requires Tiles(spans, from, to) && k < |spans|
    ensures from <= spans[k].start < spans[k].stop <= to
    decreases |spans|
  {
    TilesEnd(spans[1..], spans[0].stop, to);
    if k > 0 { TilesFrom(spans[1..], spans[0].stop, to, k - 1); }
  }

  lemma {:induction false} TilesEnd(spans: seq<Span>, from: nat, to: nat)
    requires Tiles(spans, from, to)
    ensures from <= to
    decreases |spans|
  {
    if spans != [] { TilesEnd(spans[1..], spans[0].stop, to); }
  }

  lemma {:induction false} LineHasSpan(spans: seq<Span>, from: nat, to: nat, line: nat) returns (k: nat)
    requires Tiles(spans, from, to) && from <= line < to
    ensures k < |spans| && spans[k].start <= line < spans[k].stop
    decreases |spans|
  {
    if line < spans[0].stop {
      k := 0;
    } else {
      k := LineHasSpan(spans[1..], spans[0].stop, to, line);
      k := k + 1;
    }
  }

  predicate Covers(sp: Span, line: nat) { sp.start <= line < sp.stop }

  /** Every line of the payload lies in exactly one span. */
  lemma EachLineOnce(rd: Reader, ctx: Context, lines: seq<string>, line: nat) returns (k: nat)
    requires line < |lines|
    ensures var spans := Spans(rd, ctx, lines, 0);
      && k < |spans| && Covers(spans[k], line)
      && forall j :: 0 <= j < |spans| && Covers(spans[j], line) ==> j == k
  {
    var spans := Spans(rd, ctx, lines, 0);
    SpansTile(rd, ctx, lines, 0);
    k := LineHasSpan(spans, 0, |lines|, line);
    assert Covers(spans[k], line);
    forall j | 0 <= j < |spans| && Covers(spans[j], line) ensures j == k {
      if j < k { TilesInOrder(spans, 0, |lines|, j, k); }
      if k < j { TilesInOrder(spans, 0, |lines|, k, j); }
    }
  }

  function Nonblank(rd: Reader, lines: seq<string>, spans: seq<Span>): nat
    requires forall k :: 0 <= k < |spans| ==> spans[k].start < |lines|
  {
    if spans == [] then 0
    else Nonblank(rd, lines, spans[..|spans| - 1]) + (if Strip(rd, lines[spans[|spans| - 1].start]) != "" then 1 else 0)
  }

  lemma {:induction false} OneEach(rd: Reader, ctx: Context, lines: seq<string>, spans: seq<Span>)
    requires forall k :: 0 <= k < |spans| ==>
      spans[k].start < |lines| && spans[k] == SpanAt(rd, ctx, lines, spans[k].start)
    ensures |EventsOf(spans)| + |DeadOf(spans)| == Nonblank(rd, lines, spans)
  {
    if spans != [] {
      var last := spans[|spans| - 1];
      assert last == SpanAt(rd, ctx, lines, last.start);
      OneEach(rd, ctx, lines, spans[..|spans| - 1]);
    }
  }

  /** Nothing is dropped or doubled: events and dead letters together number the spans that
      do not start with a blank line. */
  lemma NothingDropped(rd: Reader, ctx: Context, lines: seq<string>)
    ensures var spans := Spans(rd, ctx, lines, 0);
      && (forall k :: 0 <= k < |spans| ==> spans[k].start < |lines|)
      && |EventsOf(spans)| + |DeadOf(spans)| == Nonblank(rd, lines, spans)
  {
    var spans := Spans(rd, ctx, lines, 0);
    forall k | 0 <= k < |spans| ensures spans[k].start < |lines| && spans[k] == SpanAt(rd, ctx, lines, spans[k].start) {
      SpansAreSpans(rd, ctx, lines, 0, k);
    }
    OneEach(rd, ctx, lines, spans);
  }

  predicate AllSpace(rd: Reader, s: string) { forall i :: 0 <= i < |s| ==> rd.space(s[i]) }

  lemma {:induction false} StripLeftIs(rd: Reader, s: string) returns (before: string)
    ensures s == before + StripLeft(rd, s) && AllSpace(rd, before)
    ensures StripLeft(rd, s) != "" ==> !rd.space(StripLeft(rd, s)[0])
  {
    before := "";
    if s != "" && rd.space(s[0]) {
      var rest := StripLeftIs(rd, s[1..]);
      before := [s[0]] + rest;
      assert s == [s[0]] + s[1..];
    }
  }

  lemma {:induction false} StripRightIs(rd: Reader, s: string) returns (after: string)
    ensures s == StripRight(rd, s) + after && AllSpace(rd, after)
    ensures StripRight(rd, s) != "" ==> !rd.space(StripRight(rd, s)[|StripRight(rd, s)| - 1])
  {
    after := "";
    if s != "" && rd.space(s[|s| - 1]) {
      var rest := StripRightIs(rd, s[..|s| - 1]);
      after := rest + [s[|s| - 1]];
      assert s == s[..|s| - 1] + [s[|s| - 1]];
    }
  }

  /** Stripping takes exactly the white space at both ends. */
  lemma StripIs(rd: Reader, s: string) returns (before: string, after: string)
    ensures var t := Strip(rd, s);
      && s == before + t + after && AllSpace(rd, before) && AllSpace(rd, after)
      && (t != "" ==> !rd.space(t[0]) && !rd.space(t[|t| - 1]))
  {
    before := StripLeftIs(rd, s);
    var left := StripLeft(rd, s);
    after := StripRightIs(rd, left);
    if StripRight(rd, left) != "" { assert StripRight(rd, left)[0] == left[0]; }
  }

  /** What becomes of each span, by its first line without the white space around it.  A blank line is
      skipped; a line over the limit, or one that is no traceback head and cannot be read, is a dead
      letter; everything else is an event, with its own id where it has one and the whole block as its
      message where it is a traceback. */
  lemma OutcomeIs(rd: Reader, ctx: Context, lines: seq<string>, k: nat)
    requires k < |Spans(rd, ctx, lines, 0)|
    ensures var sp := Spans(rd, ctx, lines, 0)[k];
      && sp.start < sp.stop <= |lines|
      && var line := Strip(rd, lines[sp.start]);
      var head := "Traceback (most recent call last):" <= line;
      && (sp.outcome.Skipped? <==> line == "")
      && (sp.outcome.DeadLetter? <==> |line| > 65536 || (line != "" && !head && rd.read(line).Unreadable?))
      && (sp.outcome.DeadLetter? ==> sp.outcome.line <= line && (|line| <= 200 ==> sp.outcome.line == line))
      && (sp.outcome.Event? ==>
            && sp.outcome.message == (if head then Join(lines[sp.start..sp.stop]) else line)
            && (!head ==> sp.outcome.canonical == rd.read(line).canonical)
            && (sp.outcome.generated <==> head || rd.read(line).id == "")
            && (!sp.outcome.generated ==> sp.outcome.id == rd.read(line).id)
            && (sp.outcome.generated ==>
                  var text := ctx.service + "|" + ctx.source + "|" + ctx.delivery + "|" + Decimal(sp.start) + "|"
                              + sp.outcome.canonical;
                  sp.outcome.id == "evt-" + (if |rd.hash(text)| < 16 then rd.hash(text) else rd.hash(text)[..16])))
  {
    SpansAreSpans(rd, ctx, lines, 0, k);
    var sp := Spans(rd, ctx, lines, 0)[k];
    if sp.outcome.Event? {
      assert Material(ctx, sp.start, sp.outcome.canonical)
          == ctx.service + "|" + ctx.source + "|" + ctx.delivery + "|" + Decimal(sp.start) + "|" + sp.outcome.canonical;
    }
  }

  /** Only a traceback takes more than one line, and what it takes is its head, indented
      frames, and at most one line that closes it; it leaves off only at the end of the
      payload, after its closing line, or before the head of another traceback. */
  lemma LongSpansAreTracebacks(rd: Reader, ctx: Context, lines: seq<string>, k: nat)
    requires k < |Spans(rd, ctx, lines, 0)|
    ensures var sp := Spans(rd, ctx, lines, 0)[k];
      && sp.start < sp.stop <= |lines|
      && (sp.stop > sp.start + 1 ==> IsHead(Strip(rd, lines[sp.start])) && sp.outcome.Event?)
      && (forall i :: sp.start < i < sp.stop - 1 ==> Indented(rd, lines[i]))
      && (sp.stop > sp.start + 1 && !Indented(rd, lines[sp.stop - 1]) ==> !IsHead(lines[sp.stop - 1]))
      && (IsHead(Strip(rd, lines[sp.start])) && |Strip(rd, lines[sp.start])| <= DEAD_LETTER_MAX ==>
            || sp.stop == |lines|
            || (sp.stop > sp.start + 1 && !Indented(rd, lines[sp.stop - 1]))
            || IsHead(lines[sp.stop]))
  {
    SpansAreSpans(rd, ctx, lines, 0, k);
  }

  // --- generated ids ------------------------------------------------------------------------------

  /** Ids cut from digests of different texts in this set are different. */
  ghost predicate IdsApart(rd: Reader, materials: set<string>) {
    forall a, b | a in materials && b in materials && Cut(rd.hash(a)) == Cut(rd.hash(b)) :: a == b
  }

  function Cut(digest: string): string { if |digest| < 16 then digest else digest[..16] }

  function SpanMaterials(ctx: Context, spans: seq<Span>): set<string> {
    set k | 0 <= k < |spans| && spans[k].outcome.Event? && spans[k].outcome.generated ::
      Material(ctx, spans[k].start, spans[k].outcome.canonical)
  }

  lemma IndexFixed(ctx: Context, i: nat, j: nat, x: string, y: string)
    requires Material(ctx, i, x) == Material(ctx, j, y)
    ensures i == j
  {
    var p, a, b := Prefix(ctx), Decimal(i) + "|" + x, Decimal(j) + "|" + y;
    assert a == (p + a)[|p|..] && b == (p + b)[|p|..];
    PlainHead(Decimal(i), Decimal(j), x, y);
    NumberOfDecimal(i);
    NumberOfDecimal(j);
  }

  /** Generated ids within one delivery are distinct, because each text has its line number
      in it, as long as the digest keeps those texts apart. */
  lemma GeneratedIdsDistinct(rd: Reader, ctx: Context, lines: seq<string>, j: nat, k: nat)
    requires var spans := Spans(rd, ctx, lines, 0);
      && j < |spans| && k < |spans| && IdsApart(rd, SpanMaterials(ctx, spans))
      && spans[j].outcome.Event? && spans[j].outcome.generated
      && spans[k].outcome.Event? && spans[k].outcome.generated
      && spans[j].outcome.id == spans[k].outcome.id
    ensures j == k
  {
    var spans := Spans(rd, ctx, lines, 0);
    SpansAreSpans(rd, ctx, lines, 0, j);
    SpansAreSpans(rd, ctx, lines, 0, k);
    IdIsCut(rd, ctx, lines, spans[j]);
    IdIsCut(rd, ctx, lines, spans[k]);
    var a := Material(ctx, spans[j].start, spans[j].outcome.canonical);
    var b := Material(ctx, spans[k].start, spans[k].outcome.canonical);
    assert a in SpanMaterials(ctx, spans) && b in SpanMaterials(ctx, spans);
    IndexFixed(ctx, spans[j].start, spans[k].start, spans[j].outcome.canonical, spans[k].outcome.canonical);
    SpansTile(rd, ctx, lines, 0);
    if j < k { TilesInOrder(spans, 0, |lines|, j, k); }
    if k < j { TilesInOrder(spans, 0, |lines|, k, j); }
  }

  lemma IdIsCut(rd: Reader, ctx: Context, lines: seq<string>, sp: Span)
    requires sp.start < |lines| && sp == SpanAt(rd, ctx, lines, sp.start)
    requires sp.outcome.Event? && sp.outcome.generated
    ensures Cut(rd.hash(Material(ctx, sp.start, sp.outcome.canonical))) == sp.outcome.id[4..]
  {
    var cut := Cut(rd.hash(Material(ctx, sp.start, sp.outcome.canonical)));
    assert sp.outcome.id == "evt-" + cut;
  }
}
