/** Inspection numbers: zero-padded numerals, the latest of which is found by string order. */
module Numbering {
  import opened Text

  // ------------------------------------------------------------------ decimal numerals

  function Digit(d: nat): char
    requires d < 10
  {
    ('0' as int + d) as char
  }

  predicate IsDigit(c: char) {
    '0' <= c <= '9'
  }

  predicate AllDigits(s: string) {
    forall i :: 0 <= i < |s| ==> IsDigit(s[i])
  }

  function Decimal(n: nat): (s: string)
    ensures s != "" && AllDigits(s)
  {
    if n < 10 then [Digit(n)] else Decimal(n / 10) + [Digit(n % 10)]
  }

  function Value(s: string): nat
    requires AllDigits(s)
  {
    if s == "" then 0 else 10 * Value(s[..|s| - 1]) + (s[|s| - 1] as int - '0' as int)
  }

  function PadStart(s: string, width: nat): string
    decreases width - |s|
  {
    if |s| >= width then s else PadStart("0" + s, width)
  }

  /** Parsing undoes printing. */
  lemma {:induction false} ValueOfDecimal(n: nat)
    ensures Value(Decimal(n)) == n
  {
    if n >= 10 {
      ValueOfDecimal(n / 10);
      assert Decimal(n)[..|Decimal(n)| - 1] == Decimal(n / 10);
    }
  }

  lemma {:induction false} ZeroInFront(s: string)
    requires AllDigits(s)
    ensures AllDigits("0" + s) && Value("0" + s) == Value(s)
  {
    if s == "" {
      assert "0" + s == "0" && "0"[..0] == "";
    } else {
      ZeroInFront(s[..|s| - 1]);
      assert ("0" + s)[..|s|] == "0" + s[..|s| - 1];
    }
  }

  /** And padding changes neither the value nor, when it fits, the width. */
  lemma {:induction false} ValueOfPadded(s: string, width: nat)
    requires AllDigits(s)
    ensures AllDigits(PadStart(s, width)) && Value(PadStart(s, width)) == Value(s)
    ensures |PadStart(s, width)| == if |s| >= width then |s| else width
    decreases width - |s|
  {
    if |s| < width {
      ZeroInFront(s);
      ValueOfPadded("0" + s, width);
    }
  }

  function Power10(k: nat): (p: nat)
    ensures p >= 1
  {
    if k == 0 then 1 else 10 * Power10(k - 1)
  }

  lemma {:induction false} DecimalLength(n: nat, k: nat)
    ensures 1 <= k && n < Power10(k) ==> |Decimal(n)| <= k
    ensures n >= Power10(k) ==> |Decimal(n)| > k
  {
    assert Power10(0) == 1;
    if n >= 10 && k > 0 {
      DecimalLength(n / 10, k - 1);
    }
  }

  function LeadingDigit(n: nat): nat {
    if n < 10 then n else LeadingDigit(n / 10)
  }

  lemma {:induction false} DecimalHead(n: nat)
    ensures LeadingDigit(n) < 10 && Decimal(n)[0] == Digit(LeadingDigit(n))
  {
    if n >= 10 {
      DecimalHead(n / 10);
    }
  }

  // ------------------------------------------------------------------ string order

  predicate Less(a: string, b: string) {
    b != "" && (a == "" || a[0] < b[0] || (a[0] == b[0] && Less(a[1..], b[1..])))
  }

  lemma {:induction false} LessAtEnd(a: string, b: string, x: char, y: char)
    requires |a| == |b|
    ensures Less(a + [x], b + [y]) <==> Less(a, b) || (a == b && x < y)
  {
    if a == "" {
      assert a + [x] == [x] && b + [y] == [y];
      assert [x][1..] == "" && [y][1..] == "";
    } else {
      LessAtEnd(a[1..], b[1..], x, y);
      assert (a + [x])[1..] == a[1..] + [x] && (b + [y])[1..] == b[1..] + [y];
      assert a == [a[0]] + a[1..] && b == [b[0]] + b[1..];
    }
  }

  /** On numerals of one width, string order is numeric order. */
  lemma {:induction false} StringOrderIsNumericOrder(a: string, b: string)
    requires |a| == |b| && AllDigits(a) && AllDigits(b)
    ensures Less(a, b) <==> Value(a) < Value(b)
    ensures a == b <==> Value(a) == Value(b)
  {
    if a != "" {
      var a', b' := a[..|a| - 1], b[..|b| - 1];
      StringOrderIsNumericOrder(a', b');
      LessAtEnd(a', b', a[|a| - 1], b[|b| - 1]);
      assert a == a' + [a[|a| - 1]] && b == b' + [b[|b| - 1]];
    }
  }

  lemma {:induction false} LessBehindPrefix(prefix: string, a: string, b: string)
    ensures Less(prefix + a, prefix + b) <==> Less(a, b)
  {
    if prefix == "" {
      assert prefix + a == a && prefix + b == b;
    } else {
      LessBehindPrefix(prefix[1..], a, b);
      assert (prefix + a)[1..] == prefix[1..] + a && (prefix + b)[1..] == prefix[1..] + b;
    }
  }

  // ------------------------------------------------------------------ numbering

  function Prefix(year: nat): string {
    "INS-" + Decimal(year) + "-"
  }

  function Numbered(year: nat, sequence: nat): string {
    Prefix(year) + PadStart(Decimal(sequence), 6)
  }

  /** The greatest number in string order that carries the prefix. */
  function Latest(issued: seq<string>, prefix: string): (last: Option<string>)
    ensures last.Some? ==> StartsWith(last.value, prefix)
  {
    if issued == [] then None
    else
      var before, last := Latest(issued[..|issued| - 1], prefix), issued[|issued| - 1];
      if StartsWith(last, prefix) && (before.None? || Less(before.value, last)) then Some(last) else before
  }

  /** A suffix that is no numeral reads as NaN. */
  function NextNumber(issued: seq<string>, year: nat): string {
    var last := Latest(issued, Prefix(year));
    if last.None? then Numbered(year, 1)
    else
      var suffix := last.value[|Prefix(year)|..];
      if AllDigits(suffix) then Numbered(year, Value(suffix) + 1) else Prefix(year) + "000NaN"
  }

  /** The register after one more creation; a number that is taken already breaks its unique constraint, and the
      creation is refused. */
  function Entered(issued: seq<string>, year: nat): seq<string> {
    var next := NextNumber(issued, year);
    if next in issued then issued else issued + [next]
  }

  class InspectionRegister {
    var numbers: seq<string>

    constructor ()
      ensures numbers == []
    {
      numbers := [];
    }

    method Issue(year: nat) returns (number: Option<string>)
      modifies this
      ensures numbers == Entered(old(numbers), year)
      ensures var next := NextNumber(old(numbers), year); number == if next in old(numbers) then None else Some(next)
    {
      var prefix := Prefix(year);
      var last := Latest(numbers, prefix);
      var next := prefix + PadStart(Decimal(1), 6);
      if last.Some? {
        var suffix := last.value[|prefix|..];
        next := prefix + (if AllDigits(suffix) then PadStart(Decimal(Value(suffix) + 1), 6) else "000NaN");
      }
      if next in numbers { return None; }
      numbers := numbers + [next];
      number := Some(next);
    }
  }

  /** The register after one creation was asked for in each of these years, in this order. */
  function Register(years: seq<nat>): seq<string> {
    if years == [] then [] else Entered(Register(years[..|years| - 1]), years[|years| - 1])
  }

  function Asked(years: seq<nat>, year: nat): nat {
    if years == [] then 0
    else
      var before := Asked(years[..|years| - 1], year);
      if years[|years| - 1] == year then before + 1 else before
  }

  /** The entries of one year, in the order they were made. */
  function OfYear(issued: seq<string>, year: nat): seq<string> {
    if issued == [] then []
    else
      var before, last := OfYear(issued[..|issued| - 1], year), issued[|issued| - 1];
      if StartsWith(last, Prefix(year)) then before + [last] else before
  }

  lemma {:induction false} OfYearMembers(issued: seq<string>, year: nat)
    ensures forall x :: x in OfYear(issued, year) <==> x in issued && StartsWith(x, Prefix(year))
  {
    if issued != [] {
      OfYearMembers(issued[..|issued| - 1], year);
      assert issued == issued[..|issued| - 1] + [issued[|issued| - 1]];
    }
  }

  lemma PrefixesDiffer(year: nat, other: nat, rest: string)
    requires StartsWith(Prefix(other) + rest, Prefix(year))
    ensures year == other
  {
    var a, b := Decimal(year), Decimal(other);
    var text := Prefix(other) + rest;
    assert forall i :: 0 <= i < |a| ==> Prefix(year)[4 + i] == a[i] && text[4 + i] == a[i];
    assert Prefix(year)[4 + |a|] == '-' && text[4 + |a|] == '-';
    assert forall i :: 0 <= i < |b| ==> Prefix(other)[4 + i] == b[i] && text[4 + i] == b[i];
    assert Prefix(other)[4 + |b|] == '-' && text[4 + |b|] == '-';
    assert |a| == |b|;
    assert a == b;
    ValueOfDecimal(year);
    ValueOfDecimal(other);
  }

  lemma NextStartsWithItsPrefix(issued: seq<string>, year: nat) returns (rest: string)
    ensures NextNumber(issued, year) == Prefix(year) + rest
  {
    rest := NextNumber(issued, year)[|Prefix(year)|..];
  }

  lemma NumberedReadsBack(year: nat, sequence: nat)
    ensures StartsWith(Numbered(year, sequence), Prefix(year))
    ensures AllDigits(Numbered(year, sequence)[|Prefix(year)|..])
    ensures Value(Numbered(year, sequence)[|Prefix(year)|..]) == sequence
    ensures sequence < 1_000_000 ==> |Numbered(year, sequence)| == |Prefix(year)| + 6
  {
    ValueOfDecimal(sequence);
    ValueOfPadded(Decimal(sequence), 6);
    assert Numbered(year, sequence)[|Prefix(year)|..] == PadStart(Decimal(sequence), 6);
    if sequence < 1_000_000 {
      assert Power10(3) == 1000;
      assert Power10(6) == 1_000_000;
      DecimalLength(sequence, 6);
    }
  }

  /** A number is INS-, the year, a dash and, up to a million, six digits. */
  lemma NumbersLookLike(year: nat, sequence: nat, rest: string)
    requires sequence < 1_000_000
    ensures Numbered(year, sequence) == "INS-" + Decimal(year) + "-" + rest <==>
            |rest| == 6 && AllDigits(rest) && Value(rest) == sequence
  {
    var prefix := "INS-" + Decimal(year) + "-";
    NumberedReadsBack(year, sequence);
    var digits := Numbered(year, sequence)[|Prefix(year)|..];
    assert Numbered(year, sequence) == prefix + digits;
    assert (prefix + rest)[|prefix|..] == rest;
    if |rest| == 6 && AllDigits(rest) && Value(rest) == sequence { StringOrderIsNumericOrder(digits, rest); }
  }

  lemma NumberedOrder(year: nat, low: nat, high: nat)
    requires low < 1_000_000 && high < 1_000_000
    ensures Less(Numbered(year, low), Numbered(year, high)) <==> low < high
    ensures Numbered(year, low) == Numbered(year, high) ==> low == high
  {
    NumberedReadsBack(year, low);
    NumberedReadsBack(year, high);
    LessBehindPrefix(Prefix(year), PadStart(Decimal(low), 6), PadStart(Decimal(high), 6));
    var a, b := Numbered(year, low)[|Prefix(year)|..], Numbered(year, high)[|Prefix(year)|..];
    assert a == PadStart(Decimal(low), 6) && b == PadStart(Decimal(high), 6);
    StringOrderIsNumericOrder(a, b);
  }

  /** The millionth number is one digit wider and sorts before its predecessor. */
  lemma MillionSortsLow(year: nat)
    ensures !Less(Numbered(year, 999_999), Numbered(year, 1_000_000))
    ensures Numbered(year, 999_999) != Numbered(year, 1_000_000)
  {
    NumberedReadsBack(year, 999_999);
    NumberedReadsBack(year, 1_000_000);
    LessBehindPrefix(Prefix(year), PadStart(Decimal(999_999), 6), PadStart(Decimal(1_000_000), 6));
    DecimalHead(999_999);
    DecimalHead(1_000_000);
    assert LeadingDigit(999_999) == 9 && LeadingDigit(1_000_000) == 1;
    assert Power10(3) == 1000;
    assert Power10(5) == 100_000 && Power10(6) == 1_000_000;
    DecimalLength(999_999, 5);
    DecimalLength(1_000_000, 6);
  }

  const LIMIT: nat := 1_000_000

  /** How many inspections of the year are in the register after so many were asked for. */
  function Entries(years: seq<nat>, year: nat): nat {
    if Asked(years, year) < LIMIT then Asked(years, year) else LIMIT
  }

  /** The first n numbers, in order. */
  ghost predicate Counts(numbers: seq<string>, year: nat, n: nat) {
    |numbers| == n && forall k :: 0 <= k < n ==> numbers[k] == Numbered(year, k + 1)
  }

  /** The search finds the highest sequence number that is six digits wide. */
  lemma {:induction false} LatestOfCount(issued: seq<string>, year: nat, n: nat)
    requires Counts(OfYear(issued, year), year, n) && n <= LIMIT
    ensures Latest(issued, Prefix(year))
            == if n == 0 then None else Some(Numbered(year, if n < LIMIT then n else LIMIT - 1))
  {
    if issued != [] {
      var init, last := issued[..|issued| - 1], issued[|issued| - 1];
      if StartsWith(last, Prefix(year)) {
        assert OfYear(issued, year)[..n - 1] == OfYear(init, year);
        assert last == OfYear(issued, year)[n - 1];
        LatestOfCount(init, year, n - 1);
        if 1 < n < LIMIT { NumberedOrder(year, n - 1, n); }
        if n == LIMIT { MillionSortsLow(year); }
      } else {
        LatestOfCount(init, year, n);
      }
    }
  }

  /** So the next number is the next in order, until the last one that fits is found over and over. */
  lemma NextOfCount(issued: seq<string>, year: nat, n: nat)
    requires Counts(OfYear(issued, year), year, n) && n <= LIMIT
    ensures n < LIMIT ==> NextNumber(issued, year) == Numbered(year, n + 1) && NextNumber(issued, year) !in issued
    ensures n == LIMIT ==> NextNumber(issued, year) in issued
  {
    var highest := if n < LIMIT then n else LIMIT - 1;
    LatestOfCount(issued, year, n);
    NumberedReadsBack(year, highest);
    NumberedReadsBack(year, highest + 1);
    OfYearMembers(issued, year);
    assert NextNumber(issued, year) == Numbered(year, highest + 1);
    if n < LIMIT {
      forall k | 0 <= k < n ensures OfYear(issued, year)[k] != Numbered(year, n + 1) { NumberedReadsBack(year, k + 1); }
    } else {
      assert OfYear(issued, year)[n - 1] == Numbered(year, n);
    }
  }

  lemma OfYearGrows(issued: seq<string>, x: string, year: nat)
    ensures OfYear(issued + [x], year)
            == if StartsWith(x, Prefix(year)) then OfYear(issued, year) + [x] else OfYear(issued, year)
  {
    assert (issued + [x])[..|issued|] == issued;
  }

  lemma OwnYearCounts(issued: seq<string>, year: nat, n: nat)
    requires Counts(OfYear(issued, year), year, n) && n <= LIMIT
    ensures Counts(OfYear(Entered(issued, year), year), year, if n < LIMIT then n + 1 else n)
  {
    NextOfCount(issued, year, n);
    if n < LIMIT {
      NumberedReadsBack(year, n + 1);
      OfYearGrows(issued, Numbered(year, n + 1), year);
    }
  }

  lemma OtherYearsDoNotCount(issued: seq<string>, year: nat, other: nat)
    requires other != year
    ensures OfYear(Entered(issued, other), year) == OfYear(issued, year)
  {
    var rest := NextStartsWithItsPrefix(issued, other);
    OfYearGrows(issued, NextNumber(issued, other), year);
    if StartsWith(NextNumber(issued, other), Prefix(year)) { PrefixesDiffer(year, other, rest); }
  }

  /** The numbers of a year are 1, 2, 3, ... in the order of creation, whatever other years are asked for in between,
      up to a million of them. */
  lemma {:induction false} IssuedInOrder(years: seq<nat>, year: nat)
    ensures Counts(OfYear(Register(years), year), year, Entries(years, year))
  {
    if years != [] {
      var init, last := years[..|years| - 1], years[|years| - 1];
      IssuedInOrder(init, year);
      if last == year {
        OwnYearCounts(Register(init), year, Entries(init, year));
      } else {
        OtherYearsDoNotCount(Register(init), year, last);
      }
    }
  }

  /** A creation is refused exactly when a million inspections of its year were asked for before: from then on the
      search finds 999999 and the next number is taken. */
  lemma RefusedAfterAMillion(years: seq<nat>, year: nat)
    ensures NextNumber(Register(years), year) in Register(years) <==> Asked(years, year) >= LIMIT
  {
    IssuedInOrder(years, year);
    NextOfCount(Register(years), year, Entries(years, year));
  }
}
