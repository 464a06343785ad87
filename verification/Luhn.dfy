/** The Luhn check on card-number candidates (Annex B of ISO/IEC 7812-1). */
module Luhn {
  import Text

  /** How a character counts: a decimal digit of some script, a character that passes for a
      digit but has no decimal value, such as a superscript, or anything else. */
  datatype Kind = Decimal(value: int) | OtherDigit | NotDigit

  /** The ten ASCII digits have their values, no value is above nine, and separators are not
      digits; which other characters are digits is left open. */
  ghost predicate Sane(kind: char -> Kind) {
    && (forall c | Text.IsDigit(c) :: kind(c) == Decimal(c as int - '0' as int))
    && (forall c | kind(c).Decimal? :: 0 <= kind(c).value <= 9)
    && kind(' ').NotDigit? && kind('-').NotDigit?
  }

  predicate IsSeparator(c: char) { c == ' ' || c == '-' }

  /** A digit's worth; every second one from the right is doubled and cast out by nines. */
  function Worth(d: int, doubled: bool): int {
    if !doubled then d else if 2 * d > 9 then 2 * d - 9 else 2 * d
  }

  function Compact(s: string): string {
    if s == "" then ""
    else if IsSeparator(s[|s| - 1]) then Compact(s[..|s| - 1])
    else Compact(s[..|s| - 1]) + [s[|s| - 1]]
  }

  /** Decimal digits and separators only. */
  predicate Numeric(kind: char -> Kind, s: string) {
    forall i :: 0 <= i < |s| ==> kind(s[i]).Decimal? || IsSeparator(s[i])
  }

  /** The checksum read straight off the text, skipping separators; `doubled` says whether
      the last digit counts double. */
  function Total(kind: char -> Kind, s: string, doubled: bool): int
    requires Numeric(kind, s)
  {
    if s == "" then 0
    else if IsSeparator(s[|s| - 1]) then Total(kind, s[..|s| - 1], doubled)
    else Worth(kind(s[|s| - 1]).value, doubled) + Total(kind, s[..|s| - 1], !doubled)
  }

  predicate OnlySeparators(s: string) { forall i :: 0 <= i < |s| ==> IsSeparator(s[i]) }

  predicate Valid(kind: char -> Kind, s: string) {
    Numeric(kind, s) && !OnlySeparators(s) && Total(kind, s, false) % 10 == 0
  }

  /** Something that is neither a digit nor a separator. */
  predicate HasOther(kind: char -> Kind, s: string) {
    exists i :: 0 <= i < |s| && kind(s[i]).NotDigit? && !IsSeparator(s[i])
  }

  /** The check raises on text that passes for digits but is not all decimal. */
  datatype Answer = Accepted | Rejected | Raised

  function Verdict(kind: char -> Kind, s: string): Answer {
    if OnlySeparators(s) || HasOther(kind, s) then Rejected
    else if !Numeric(kind, s) then Raised
    else if Total(kind, s, false) % 10 == 0 then Accepted
    else Rejected
  }

  // --- the check itself --------------------------------------------------------------------

  method LuhnValid(kind: char -> Kind, digits: string) returns (r: Answer)
    ensures r == Verdict(kind, digits)
    ensures r.Accepted? <==> Valid(kind, digits)
  {
    var compact := Compact(digits);
    CompactIs(kind, digits);
    if compact == "" || exists i :: 0 <= i < |compact| && kind(compact[i]).NotDigit? { return Rejected; }
    var total := 0;
    var n := |compact|;
    var index := 0;
    assert compact[..n] == compact;
    while index < n
      invariant 0 <= index <= n
      invariant forall i :: n - index <= i < n ==> kind(compact[i]).Decimal?
      invariant Numeric(kind, compact) ==>
        total + Total(kind, compact[..n - index], index % 2 == 1) == Total(kind, compact, false)
    {
      assert compact[..n - index][..n - index - 1] == compact[..n - 1 - index];
      if !kind(compact[n - 1 - index]).Decimal? { return Raised; }
      var value := kind(compact[n - 1 - index]).value;
      if index % 2 == 1 {
        value := value * 2;
        if value > 9 { value := value - 9; }
      }
      total := total + value;
      index := index + 1;
    }
    CompactKeepsTotal(kind, digits, false);
    r := if total % 10 == 0 then Accepted else Rejected;
  }

  lemma {:induction false} CompactIs(kind: char -> Kind, s: string)
    ensures Compact(s) == "" <==> OnlySeparators(s)
    ensures (exists i :: 0 <= i < |Compact(s)| && kind(Compact(s)[i]).NotDigit?) <==> HasOther(kind, s)
    ensures Numeric(kind, Compact(s)) <==> Numeric(kind, s)
    ensures forall i :: 0 <= i < |Compact(s)| ==> !IsSeparator(Compact(s)[i])
  {
    if s != "" {
      var init, last := s[..|s| - 1], s[|s| - 1];
      CompactIs(kind, init);
      assert s == init + [last];
      if !IsSeparator(last) {
        var compact := Compact(s);
        assert compact == Compact(init) + [last];
        OneMoreNumeric(kind, Compact(init), last);
        OneMoreOther(kind, init, last);
        OneMoreNotDigit(kind, Compact(init), last);
      } else {
        OneMoreOther(kind, init, last);
      }
      OneMoreNumeric(kind, init, last);
    }
  }

  lemma OneMoreNumeric(kind: char -> Kind, s: string, c: char)
    ensures Numeric(kind, s + [c]) <==> Numeric(kind, s) && (kind(c).Decimal? || IsSeparator(c))
  {
    assert (s + [c])[|s|] == c && forall i :: 0 <= i < |s| ==> (s + [c])[i] == s[i];
  }

  lemma OneMoreOther(kind: char -> Kind, s: string, c: char)
    ensures HasOther(kind, s + [c]) <==> HasOther(kind, s) || (kind(c).NotDigit? && !IsSeparator(c))
  {
    assert (s + [c])[|s|] == c && forall i :: 0 <= i < |s| ==> (s + [c])[i] == s[i];
  }

  lemma OneMoreNotDigit(kind: char -> Kind, s: string, c: char)
    ensures (exists i :: 0 <= i < |s + [c]| && kind((s + [c])[i]).NotDigit?)
      <==> (exists i :: 0 <= i < |s| && kind(s[i]).NotDigit?) || kind(c).NotDigit?
  {
    assert (s + [c])[|s|] == c && forall i :: 0 <= i < |s| ==> (s + [c])[i] == s[i];
  }

  lemma {:induction false} CompactKeepsTotal(kind: char -> Kind, s: string, doubled: bool)
    requires Numeric(kind, s)
    ensures Numeric(kind, Compact(s)) && Total(kind, Compact(s), doubled) == Total(kind, s, doubled)
  {
    CompactIs(kind, s);
    if s != "" {
      var init, last := s[..|s| - 1], s[|s| - 1];
      CompactKeepsTotal(kind, init, doubled);
      CompactKeepsTotal(kind, init, !doubled);
      if !IsSeparator(last) { assert (Compact(init) + [last])[..|Compact(init)|] == Compact(init); }
    }
  }

  // --- what it catches ---------------------------------------------------------------------------

  /** Replacing one digit changes the total by the difference in worth. */
  lemma {:induction false} ReplaceOne(kind: char -> Kind, s: string, i: nat, c: char, doubled: bool)
    requires Sane(kind) && Numeric(kind, s) && i < |s| && kind(s[i]).Decimal? && kind(c).Decimal?
    ensures Numeric(kind, s[i := c])
    ensures exists p ::
      Total(kind, s[i := c], doubled) - Total(kind, s, doubled) == Worth(kind(c).value, p) - Worth(kind(s[i]).value, p)
  {
    var n := |s| - 1;
    if i < n {
      assert s[i := c][..n] == s[..n][i := c];
      ReplaceOne(kind, s[..n], i, c, if IsSeparator(s[n]) then doubled else !doubled);
    } else {
      assert s[i := c][..n] == s[..n];
      assert Total(kind, s[i := c], doubled) - Total(kind, s, doubled)
          == Worth(kind(c).value, doubled) - Worth(kind(s[i]).value, doubled);
    }
  }

  lemma WorthApart(a: int, b: int, p: bool)
    requires 0 <= a <= 9 && 0 <= b <= 9 && a != b
    ensures -9 <= Worth(a, p) - Worth(b, p) <= 9 && Worth(a, p) != Worth(b, p)
  {
  }

  /** A change smaller than ten is visible in the last digit. */
  lemma SmallChangeShows(total: int, change: int)
    requires total % 10 == 0 && -9 <= change <= 9
    ensures (total + change) % 10 == 0 <==> change == 0
  {
  }

  /** Any single wrong digit in a valid number is caught, whatever its length. */
  lemma WrongDigitCaught(kind: char -> Kind, s: string, i: nat, c: char)
    requires Sane(kind) && Valid(kind, s) && i < |s| && kind(s[i]).Decimal?
    requires kind(c).Decimal? && kind(c).value != kind(s[i]).value
    ensures !Valid(kind, s[i := c])
  {
    ReplaceOne(kind, s, i, c, false);
    var p :| Total(kind, s[i := c], false) - Total(kind, s, false)
        == Worth(kind(c).value, p) - Worth(kind(s[i]).value, p);
    WorthApart(kind(c).value, kind(s[i]).value, p);
    SmallChangeShows(Total(kind, s, false), Worth(kind(c).value, p) - Worth(kind(s[i]).value, p));
  }

  function Swapped(s: string, i: nat, j: nat): string
    requires i < j < |s|
  {
    s[i := s[j]][j := s[i]]
  }

  predicate Neighbours(kind: char -> Kind, s: string, i: nat, j: nat) {
    && i < j < |s| && kind(s[i]).Decimal? && kind(s[j]).Decimal?
    && forall k :: i < k < j ==> IsSeparator(s[k])
  }

  /** How much doubling adds to a digit. */
  function Gain(d: int): int { Worth(d, true) - d }

  lemma {:induction false} SkipSeparators(kind: char -> Kind, s: string, n: nat, doubled: bool)
    requires Numeric(kind, s) && n <= |s| && forall k :: n <= k < |s| ==> IsSeparator(s[k])
    ensures Total(kind, s, doubled) == Total(kind, s[..n], doubled)
  {
    if n < |s| {
      assert s[..|s| - 1][..n] == s[..n];
      SkipSeparators(kind, s[..|s| - 1], n, doubled);
    } else {
      assert s[..n] == s;
    }
  }

  /** Swapping two neighbouring digits changes the total by the difference in gain. */
  lemma {:induction false} SwapTwo(kind: char -> Kind, s: string, i: nat, j: nat, doubled: bool)
    requires Sane(kind) && Numeric(kind, s) && Neighbours(kind, s, i, j)
    ensures Numeric(kind, Swapped(s, i, j))
    ensures var change := Total(kind, Swapped(s, i, j), doubled) - Total(kind, s, doubled);
      var a, b := kind(s[i]).value, kind(s[j]).value;
      change == Gain(a) - Gain(b) || change == Gain(b) - Gain(a)
  {
    var n := |s| - 1;
    var t := Swapped(s, i, j);
    if j < n {
      assert t[..n] == Swapped(s[..n], i, j);
      SwapTwo(kind, s[..n], i, j, if IsSeparator(s[n]) then doubled else !doubled);
    } else {
      SkipSeparators(kind, s[..n], i + 1, !doubled);
      SkipSeparators(kind, t[..n], i + 1, !doubled);
      assert s[..n][..i + 1] == s[..i + 1] && t[..n][..i + 1] == t[..i + 1];
      assert s[..i + 1][..i] == t[..i + 1][..i] == s[..i];
    }
  }

  /** Swapping two different neighbouring digits is caught, except for 0 with 9. */
  lemma SwapCaught(kind: char -> Kind, s: string, i: nat, j: nat)
    requires Sane(kind) && Valid(kind, s) && Neighbours(kind, s, i, j)
    ensures var a, b := kind(s[i]).value, kind(s[j]).value;
      Valid(kind, Swapped(s, i, j)) <==> a == b || (a == 0 && b == 9) || (a == 9 && b == 0)
  {
    SwapTwo(kind, s, i, j, false);
    var t := Swapped(s, i, j);
    assert kind(t[i]).Decimal? && !IsSeparator(t[i]);
    GainsApart(kind(s[i]).value, kind(s[j]).value);
    SmallChangeShows(Total(kind, s, false), Total(kind, t, false) - Total(kind, s, false));
  }

  lemma GainsApart(a: int, b: int)
    requires 0 <= a <= 9 && 0 <= b <= 9
    ensures -8 <= Gain(a) - Gain(b) <= 8
    ensures Gain(a) == Gain(b) <==> a == b || (a == 0 && b == 9) || (a == 9 && b == 0)
  {
  }

  /** The value a check digit must have. */
  function CheckValue(kind: char -> Kind, s: string): int
    requires Numeric(kind, s)
  {
    (10 - Total(kind, s, true) % 10) % 10
  }

  /** Every prefix has exactly one check digit: one value, and an ASCII digit that has it. */
  lemma OneCheckDigit(kind: char -> Kind, s: string)
    requires Sane(kind) && Numeric(kind, s)
    ensures exists c :: Text.IsDigit(c) && Valid(kind, s + [c])
    ensures forall c | kind(c).Decimal? :: Valid(kind, s + [c]) <==> kind(c).value == CheckValue(kind, s)
  {
    var v := CheckValue(kind, s);
    forall c | kind(c).Decimal? ensures Valid(kind, s + [c]) <==> kind(c).value == v {
      OneMoreNumeric(kind, s, c);
      assert (s + [c])[..|s|] == s && (s + [c])[|s|] == c && !IsSeparator(c);
      assert Total(kind, s + [c], false) == kind(c).value + Total(kind, s, true);
    }
    var c := (v + '0' as int) as char;
    assert Text.IsDigit(c) && kind(c).Decimal? && kind(c).value == v;
    assert Valid(kind, s + [c]);
  }

  /** Spaces and dashes anywhere make no difference. */
  lemma SeparatorsIgnored(kind: char -> Kind, s: string)
    ensures Verdict(kind, s) == Verdict(kind, Compact(s))
  {
    CompactIs(kind, s);
    CompactAgain(s);
    CompactIs(kind, Compact(s));
    if Numeric(kind, s) { CompactKeepsTotal(kind, s, false); }
  }

  lemma {:induction false} CompactAgain(s: string)
    ensures Compact(Compact(s)) == Compact(s)
  {
    if s != "" {
      CompactAgain(s[..|s| - 1]);
      if !IsSeparator(s[|s| - 1]) {
        assert Compact(s)[..|Compact(s)| - 1] == Compact(s[..|s| - 1]);
      }
    }
  }
}
