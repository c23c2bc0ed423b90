/** The string building the views share: the decimal rendering that a
    template literal gives a count, the "N unit" labels built from it, ASCII
    case mapping, and joining lines with "\n" together with its inverse,
    JavaScript's `split("\n")`. */
module Text {

  import opened Wrappers

  predicate IsDigit(c: char) {
    '0' <= c <= '9'
  }

  predicate IsDigits(s: string) {
    forall i :: 0 <= i < |s| ==> IsDigit(s[i])
  }

  function DigitChar(d: nat): (c: char)
    requires d < 10
    ensures IsDigit(c)
    ensures c == '0' <==> d == 0
  {
    ('0' as int + d) as char
  }

  function DigitValue(c: char): (d: nat)
    requires IsDigit(c)
    ensures d < 10 && DigitChar(d) == c
  {
    c as int - '0' as int
  }

  /** `${n}` for a non-negative integer `n`: its decimal digits, no leading zero. */
  function Decimal(n: nat): (r: string)
    ensures |r| >= 1 && IsDigits(r)
    ensures r[0] == '0' ==> n == 0
  {
    if n < 10 then [DigitChar(n)] else Decimal(n / 10) + [DigitChar(n % 10)]
  }

  /** The number a string of decimal digits denotes. */
  function ParseDecimal(s: string): nat
    requires IsDigits(s)
  {
    if s == [] then 0 else 10 * ParseDecimal(s[..|s| - 1]) + DigitValue(s[|s| - 1])
  }

  /** Reading back a rendered count gives the count. */
  lemma {:induction false} DecimalRoundTrip(n: nat)
    ensures ParseDecimal(Decimal(n)) == n
  {
    if n >= 10 {
      var s := Decimal(n);
      assert s[..|s| - 1] == Decimal(n / 10);
      DecimalRoundTrip(n / 10);
    }
  }

  /** `${n} ${unit}`: a count followed by one space and a unit word. */
  function Counted(n: nat, unit: string): string {
    Decimal(n) + " " + unit
  }

  /** The longest prefix of `s` made of digits. */
  function LeadingDigits(s: string): (r: string)
    ensures IsDigits(r) && r <= s
    ensures |r| < |s| ==> !IsDigit(s[|r|])
  {
    if s == [] || !IsDigit(s[0]) then [] else [s[0]] + LeadingDigits(s[1..])
  }

  /** The count at the head of a "N unit" label, when there is one. */
  function CountOf(s: string): Option<nat> {
    var digits := LeadingDigits(s);
    if digits != [] && |digits| < |s| && s[|digits|] == ' ' then Some(ParseDecimal(digits)) else None
  }

  /** The unit word of a "N unit" label: everything after the space that follows the count. */
  function UnitOf(s: string): string {
    var digits := LeadingDigits(s);
    if |digits| < |s| then s[|digits| + 1..] else []
  }

  lemma {:induction false} LeadingDigitsOfCounted(d: string, rest: string)
    requires IsDigits(d)
    requires rest == [] || !IsDigit(rest[0])
    ensures LeadingDigits(d + rest) == d
  {
    if d != [] {
      assert (d + rest)[1..] == d[1..] + rest;
      LeadingDigitsOfCounted(d[1..], rest);
    } else {
      assert d + rest == rest;
    }
  }

  /** A "N unit" label reads back as its count and its unit, whatever the unit. */
  lemma CountedRoundTrip(n: nat, unit: string)
    ensures CountOf(Counted(n, unit)) == Some(n)
    ensures UnitOf(Counted(n, unit)) == unit
  {
    var d := Decimal(n);
    assert Counted(n, unit) == d + (" " + unit);
    LeadingDigitsOfCounted(d, " " + unit);
    DecimalRoundTrip(n);
  }

  /** `${n} items`, the subtitle of a list section of `n` entries: it reads
      back as `n`. */
  function ItemsSubtitle(n: nat): (r: string)
    ensures CountOf(r) == Some(n) && UnitOf(r) == "items"
  {
    CountedRoundTrip(n, "items");
    Counted(n, "items")
  }

  function UpperChar(c: char): char {
    if 'a' <= c <= 'z' then (c as int - 32) as char else c
  }

  function LowerChar(c: char): char {
    if 'A' <= c <= 'Z' then (c as int + 32) as char else c
  }

  /** `toUpperCase()` on ASCII text. */
  function Upper(s: string): (r: string)
    ensures |r| == |s| && forall i :: 0 <= i < |s| ==> r[i] == UpperChar(s[i])
  {
    seq(|s|, i requires 0 <= i < |s| => UpperChar(s[i]))
  }

  /** The ASCII alphabet in both cases, letter by letter. */
  const SmallLetters: string := "abcdefghijklmnopqrstuvwxyz"
  const CapitalLetters: string := "ABCDEFGHIJKLMNOPQRSTUVWXYZ"

  lemma AlphabetCodes()
    ensures |SmallLetters| == 26 && |CapitalLetters| == 26
    ensures forall k :: 0 <= k < 26 ==> SmallLetters[k] as int == 'a' as int + k
    ensures forall k :: 0 <= k < 26 ==> CapitalLetters[k] as int == 'A' as int + k
  {
  }

  /** Upper-casing one character by the alphabet table: the k-th small letter
      becomes the k-th capital, any other character stays as it is, and no
      small letter is left. */
  lemma UpperCharByTable(c: char)
    ensures forall k :: 0 <= k < |SmallLetters| && c == SmallLetters[k] ==> UpperChar(c) == CapitalLetters[k]
    ensures c !in SmallLetters ==> UpperChar(c) == c
    ensures UpperChar(c) !in SmallLetters
  {
    AlphabetCodes();
    if 'a' <= c <= 'z' {
      var k := c as int - 'a' as int;
      assert SmallLetters[k] == c;
    }
  }

  /** Upper-casing text by the alphabet table: the length is kept, each small
      letter becomes its capital, every other character is kept, and no small
      letter is left. */
  lemma UpperByTable(s: string)
    ensures |Upper(s)| == |s|
    ensures forall i, k :: 0 <= i < |s| && 0 <= k < |SmallLetters| && s[i] == SmallLetters[k] ==> Upper(s)[i] == CapitalLetters[k]
    ensures forall i :: 0 <= i < |s| && s[i] !in SmallLetters ==> Upper(s)[i] == s[i]
    ensures forall i :: 0 <= i < |s| ==> Upper(s)[i] !in SmallLetters
  {
    forall i | 0 <= i < |s| {
      UpperCharByTable(s[i]);
    }
  }

  /** Upper-casing twice is upper-casing once. */
  lemma UpperIdempotent(s: string)
    ensures Upper(Upper(s)) == Upper(s)
  {
    UpperByTable(s);
    UpperByTable(Upper(s));
  }

  /** `toLowerCase()` on ASCII text. */
  function Lower(s: string): (r: string)
    ensures |r| == |s| && forall i :: 0 <= i < |s| ==> r[i] == LowerChar(s[i])
  {
    seq(|s|, i requires 0 <= i < |s| => LowerChar(s[i]))
  }

  const NewLine: char := '\n'

  /** `lines.join("\n")`. */
  function JoinLines(lines: seq<string>): string {
    if lines == [] then ""
    else if |lines| == 1 then lines[0]
    else lines[0] + [NewLine] + JoinLines(lines[1..])
  }

  /** `s.split("\n")`: the pieces between line breaks, always at least one. */
  function SplitLines(s: string): (r: seq<string>)
    ensures |r| >= 1
  {
    if s == [] then [""]
    else
      var rest := SplitLines(s[1..]);
      if s[0] == NewLine then [""] + rest else [[s[0]] + rest[0]] + rest[1..]
  }

  lemma {:induction false} SplitLineFree(a: string)
    requires NewLine !in a
    ensures SplitLines(a) == [a]
  {
    if a != [] {
      SplitLineFree(a[1..]);
      assert [a[0]] + a[1..] == a;
    }
  }

  lemma {:induction false} SplitAtFirstBreak(a: string, b: string)
    requires NewLine !in a
    ensures SplitLines(a + [NewLine] + b) == [a] + SplitLines(b)
  {
    if a == [] {
      assert a + [NewLine] + b == [NewLine] + b;
      assert ([NewLine] + b)[1..] == b;
    } else {
      assert (a + [NewLine] + b)[1..] == a[1..] + [NewLine] + b;
      SplitAtFirstBreak(a[1..], b);
      assert [a[0]] + a[1..] == a;
    }
  }

  /** Splitting joined lines gives the lines back, as long as none holds a line break
      (an empty list joins to "", which splits to one empty line). */
  lemma {:induction false} SplitJoin(lines: seq<string>)
    requires lines != []
    requires forall k :: 0 <= k < |lines| ==> NewLine !in lines[k]
    ensures SplitLines(JoinLines(lines)) == lines
  {
    if |lines| == 1 {
      SplitLineFree(lines[0]);
    } else {
      SplitAtFirstBreak(lines[0], JoinLines(lines[1..]));
      SplitJoin(lines[1..]);
    }
  }

  /** Joining the pieces of a split gives the string back. */
  lemma {:induction false} JoinSplit(s: string)
    ensures JoinLines(SplitLines(s)) == s
  {
    if s != [] {
      var rest := SplitLines(s[1..]);
      JoinSplit(s[1..]);
      if s[0] == NewLine {
        assert ([""] + rest)[1..] == rest;
      } else {
        var r := [[s[0]] + rest[0]] + rest[1..];
        assert r[1..] == rest[1..];
        if |rest| > 1 {
          assert JoinLines(rest) == rest[0] + [NewLine] + JoinLines(rest[1..]);
        }
      }
    }
  }
}
