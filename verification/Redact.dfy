/**
 Masking card numbers in log lines: the digit-run prefilter, the Luhn check
 (ISO/IEC 7812-1 Annex B) and the card step of Redact (internal/logs/redact.go).
 */
module Redact {
  import opened Prelude

  const MASK := "***"

  predicate IsSeparator(c: char) {
    c == ' ' || c == '-'
  }

  // ---- runs of digits ----

  /** s is n digits with at most one space or dash between neighbours. */
  predicate DigitRun(s: string, n: nat) {
    && n >= 1 && s != "" && IsDigit(s[|s| - 1])
    && (if n == 1 then |s| == 1
        else DigitRun(s[..|s| - 1], n - 1)
             || (|s| >= 2 && IsSeparator(s[|s| - 2]) && DigitRun(s[..|s| - 2], n - 1)))
  }

  /** A run of n digits ends right before index i. */
  ghost predicate RunEndsAt(s: string, i: nat, n: nat)
    requires i <= |s|
  {
    exists a :: 0 <= a <= i && DigitRun(s[a..i], n)
  }

  ghost predicate HasRun(s: string, n: nat) {
    exists a, b :: 0 <= a <= b <= |s| && DigitRun(s[a..b], n)
  }

  lemma RunExtends(s: string, i: nat, n: nat)
    requires i < |s| && n >= 2
    ensures RunEndsAt(s, i + 1, n) <==>
            IsDigit(s[i]) && (RunEndsAt(s, i, n - 1) || (i >= 1 && IsSeparator(s[i - 1]) && RunEndsAt(s, i - 1, n - 1)))
  {
    if RunEndsAt(s, i + 1, n) { RunWithoutLast(s, i, n); }
    if IsDigit(s[i]) && RunEndsAt(s, i, n - 1) { RunWithDigit(s, i, n); }
    if IsDigit(s[i]) && i >= 1 && IsSeparator(s[i - 1]) && RunEndsAt(s, i - 1, n - 1) { RunOverSeparator(s, i, n); }
  }

  lemma RunWithoutLast(s: string, i: nat, n: nat)
    requires i < |s| && n >= 2 && RunEndsAt(s, i + 1, n)
    ensures IsDigit(s[i]) && (RunEndsAt(s, i, n - 1) || (i >= 1 && IsSeparator(s[i - 1]) && RunEndsAt(s, i - 1, n - 1)))
  {
    var a :| 0 <= a <= i + 1 && DigitRun(s[a..i + 1], n);
    var t := s[a..i + 1];
    assert t[..|t| - 1] == s[a..i];
    if |t| >= 2 { assert t[..|t| - 2] == s[a..i - 1]; }
  }

  lemma RunWithDigit(s: string, i: nat, n: nat)
    requires i < |s| && n >= 2 && IsDigit(s[i]) && RunEndsAt(s, i, n - 1)
    ensures RunEndsAt(s, i + 1, n)
  {
    var a :| 0 <= a <= i && DigitRun(s[a..i], n - 1);
    var t := s[a..i + 1];
    assert t[..|t| - 1] == s[a..i];
    assert DigitRun(t, n);
  }

  lemma RunOverSeparator(s: string, i: nat, n: nat)
    requires 1 <= i < |s| && n >= 2 && IsDigit(s[i]) && IsSeparator(s[i - 1]) && RunEndsAt(s, i - 1, n - 1)
    ensures RunEndsAt(s, i + 1, n)
  {
    var a :| 0 <= a <= i - 1 && DigitRun(s[a..i - 1], n - 1);
    var t := s[a..i + 1];
    assert t[..|t| - 2] == s[a..i - 1];
    assert DigitRun(t, n);
  }

  /** The runs ending right before i are those of up to `run` digits. */
  ghost predicate LongestRun(s: string, i: nat, run: nat)
    requires i <= |s|
  {
    forall n: nat :: n >= 1 ==> (RunEndsAt(s, i, n) <==> n <= run)
  }

  lemma RunOfOne(s: string, i: nat)
    requires i < |s|
    ensures RunEndsAt(s, i + 1, 1) <==> IsDigit(s[i])
    ensures !IsDigit(s[i]) ==> LongestRun(s, i + 1, 0)
  {
    assert s[i..i + 1] == [s[i]];
    if IsDigit(s[i]) { assert DigitRun(s[i..i + 1], 1); }
  }

  /** What the scan knows before index i: the longest run ending there, or right before one separator. */
  ghost predicate Scanned(s: string, i: nat, run: nat, sep: bool)
    requires i <= |s|
  {
    if sep then
      i >= 1 && IsSeparator(s[i - 1]) && run >= 1 && LongestRun(s, i, 0) && LongestRun(s, i - 1, run)
    else
      LongestRun(s, i, run) && (i >= 1 && IsSeparator(s[i - 1]) ==> LongestRun(s, i - 1, 0))
  }

  lemma ScanDigit(s: string, i: nat, run: nat, sep: bool)
    requires i < |s| && Scanned(s, i, run, sep) && IsDigit(s[i])
    ensures Scanned(s, i + 1, run + 1, false)
  {
    RunOfOne(s, i);
    var next := i + 1;
    forall n: nat | n >= 1 ensures RunEndsAt(s, next, n) <==> n <= run + 1 {
      if n >= 2 {
        RunExtends(s, i, n);
        assert RunEndsAt(s, i, n - 1) ==> n - 1 <= if sep then 0 else run;
        if i >= 1 { RunOfOne(s, i - 1); }
      }
    }
  }

  lemma ScanOther(s: string, i: nat, run: nat, sep: bool)
    requires i < |s| && Scanned(s, i, run, sep) && !IsDigit(s[i])
    ensures if IsSeparator(s[i]) && run > 0 && !sep then Scanned(s, i + 1, run, true) else Scanned(s, i + 1, 0, false)
  {
    RunOfOne(s, i);
  }

  /** hasDigitRun: exact for every n; asking for less than one digit asks for one. */
  method HasDigitRun(s: string, n: int) returns (found: bool)
    ensures found <==> HasRun(s, if n < 1 then 1 else n)
  {
    ghost var want: nat := if n < 1 then 1 else n;
    var run, sep := 0, false;
    assert Scanned(s, 0, 0, false);
    for i := 0 to |s|
      invariant run >= 0 && Scanned(s, i, run, sep)
      invariant forall j :: 0 <= j <= i ==> !RunEndsAt(s, j, want)
      invariant run < want
    {
      var c := s[i];
      if IsDigit(c) {
        ScanDigit(s, i, run, sep);
        run, sep := run + 1, false;
        if run >= n {
          assert RunEndsAt(s, i + 1, want);
          return true;
        }
      } else if IsSeparator(c) && run > 0 && !sep {
        ScanOther(s, i, run, sep);
        sep := true;
      } else {
        ScanOther(s, i, run, sep);
        run, sep := 0, false;
      }
    }
    forall a, b | 0 <= a <= b <= |s| ensures !DigitRun(s[a..b], want) {
      assert !RunEndsAt(s, b, want);
    }
    return false;
  }

  // ---- the card step ----

  function Digits(s: string): string {
    if s == "" then "" else Digits(s[..|s| - 1]) + (if IsDigit(s[|s| - 1]) then [s[|s| - 1]] else [])
  }

  /** n times a digit and an optional separator. */
  predicate Repeats(t: string, n: nat) {
    if n == 0 then t == ""
    else
      || (t != "" && IsDigit(t[|t| - 1]) && Repeats(t[..|t| - 1], n - 1))
      || (|t| >= 2 && IsSeparator(t[|t| - 1]) && IsDigit(t[|t| - 2]) && Repeats(t[..|t| - 2], n - 1))
  }

  predicate IsWord(c: char) {
    IsDigit(c) || 'a' <= c <= 'z' || 'A' <= c <= 'Z' || c == '_'
  }

  /** Of the characters on both sides of index i exactly one belongs to a word. */
  predicate WordBoundary(s: string, i: nat)
    requires i <= |s|
  {
    (i > 0 && IsWord(s[i - 1])) != (i < |s| && IsWord(s[i]))
  }

  /**
   The card pattern matches s[i..j]: 12 to 18 times a digit and an optional
   separator, then a digit, between word boundaries.
   */
  ghost predicate CardMatch(s: string, i: nat, j: nat) {
    && i < j <= |s| && WordBoundary(s, i) && WordBoundary(s, j)
    && IsDigit(s[j - 1]) && CardBody(s[i..j - 1])
  }

  ghost predicate CardBody(t: string) {
    exists n :: 12 <= n <= 18 && Repeats(t, n)
  }

  lemma {:induction false} RepeatsIsRun(t: string, n: nat)
    requires t != "" && IsDigit(t[|t| - 1]) && Repeats(t[..|t| - 1], n)
    ensures DigitRun(t, n + 1)
    decreases n
  {
    if n > 0 {
      var u := t[..|t| - 1];
      if IsDigit(u[|u| - 1]) && Repeats(u[..|u| - 1], n - 1) {
        RepeatsIsRun(u, n - 1);
      } else {
        var w := t[..|t| - 2];
        assert u[..|u| - 2] == w[..|w| - 1] && u[..|u| - 1] == w;
        RepeatsIsRun(w, n - 1);
      }
    }
  }

  /** So a match holds 13 digits in a run. */
  lemma CardIsRun(s: string, i: nat, j: nat)
    requires CardMatch(s, i, j)
    ensures HasRun(s, 13)
  {
    var n :| 12 <= n <= 18 && Repeats(s[i..j - 1], n);
    assert s[i..j][..j - i - 1] == s[i..j - 1];
    RepeatsIsRun(s[i..j], n);
    RunShrinks(s, i, j, n + 1);
  }

  /** The end of the match the regexp engine finds at index i of s, if any. */
  type Matcher = (string, nat) -> Option<nat>

  /** The engine reports only matches of the pattern; which one, where there are several, is its choice. */
  ghost predicate MatchesCards(find: Matcher) {
    forall s: string, i: nat, j: nat :: find(s, i) == Some(j) ==> CardMatch(s, i, j)
  }

  /** ReplaceAllStringFunc from index i on: a match that passes the checks is masked. */
  function MaskCards(s: string, i: nat, find: Matcher): string
    decreases |s| - i
  {
    if i >= |s| then ""
    else
      match find(s, i)
      case Some(j) =>
        if i < j <= |s| then
          var d := Digits(s[i..j]);
          (if 13 <= |d| <= 19 && Luhn(d) then MASK else s[i..j]) + MaskCards(s, j, find)
        else [s[i]] + MaskCards(s, i + 1, find)
      case None => [s[i]] + MaskCards(s, i + 1, find)
  }

  /** A line the prefilter turns away is one the card step would not change. */
  lemma {:induction false} PrefilterHidesNothing(s: string, i: nat, find: Matcher)
    requires MatchesCards(find) && !HasRun(s, 13) && i <= |s|
    ensures MaskCards(s, i, find) == s[i..]
    decreases |s| - i
  {
    if i < |s| {
      match find(s, i) {
        case Some(j) =>
          CardIsRun(s, i, j);
        case None =>
          PrefilterHidesNothing(s, i + 1, find);
          assert s[i..] == [s[i]] + s[i + 1..];
      }
    }
  }

  lemma {:induction false} RunShrinks(s: string, a: nat, b: nat, n: nat)
    requires a <= b <= |s| && n >= 13 && DigitRun(s[a..b], n)
    ensures HasRun(s, 13)
    decreases n
  {
    if n > 13 {
      var t := s[a..b];
      if DigitRun(t[..|t| - 1], n - 1) {
        assert t[..|t| - 1] == s[a..b - 1];
        RunShrinks(s, a, b - 1, n - 1);
      } else {
        assert t[..|t| - 2] == s[a..b - 2];
        RunShrinks(s, a, b - 2, n - 1);
      }
    }
  }

  // ---- the Luhn check ----

  function DigitAt(s: string, i: nat): int
    requires i < |s|
  {
    s[i] as int - '0' as int
  }

  function Doubled(d: int): int {
    if 2 * d > 9 then 2 * d - 9 else 2 * d
  }

  /** What a digit counts, `right` places from the right end. */
  function Worth(d: int, right: nat): int {
    if right % 2 == 1 then Doubled(d) else d
  }

  /** The positional sum of ISO/IEC 7812-1. */
  function LuhnSum(s: string): int {
    if s == "" then 0 else Worth(DigitAt(s, 0), |s| - 1) + LuhnSum(s[1..])
  }

  predicate Luhn(s: string) {
    LuhnSum(s) % 10 == 0
  }

  method LuhnCheck(digits: string) returns (ok: bool)
    ensures ok <==> Luhn(digits)
  {
    var sum, double := 0, false;
    var i := |digits|;
    while i > 0
      invariant 0 <= i <= |digits|
      invariant sum == LuhnSum(digits[i..]) && (double <==> (|digits| - i) % 2 == 1)
    {
      i := i - 1;
      var d := DigitAt(digits, i);
      assert digits[i..][1..] == digits[i + 1..];
      if double {
        d := d * 2;
        if d > 9 {
          d := d - 9;
        }
      }
      sum := sum + d;
      double := !double;
    }
    assert digits[0..] == digits;
    ok := sum % 10 == 0;
  }

  /** Changing one digit moves the sum by the change of that digit's worth. */
  lemma {:induction false} SumAfterChange(s: string, i: nat, c: char)
    requires i < |s|
    ensures var right := |s| - 1 - i;
            LuhnSum(s[i := c]) == LuhnSum(s) - Worth(DigitAt(s, i), right) + Worth(c as int - '0' as int, right)
    decreases |s|
  {
    if i == 0 {
      assert s[0 := c][1..] == s[1..];
    } else {
      SumAfterChange(s[1..], i - 1, c);
      assert s[i := c][1..] == s[1..][i - 1 := c];
    }
  }

  /** Both weights tell all ten digits apart. */
  lemma WorthDistinct(a: int, b: int, right: nat)
    requires 0 <= a <= 9 && 0 <= b <= 9 && a != b
    ensures (Worth(a, right) - Worth(b, right)) % 10 != 0
  {
  }

  /** An accepted number with one digit changed is never accepted. */
  lemma SingleChangeRejected(s: string, i: nat, c: char)
    requires i < |s| && AllDigits(s) && Luhn(s) && IsDigit(c) && c != s[i]
    ensures !Luhn(s[i := c])
  {
    var right := |s| - 1 - i;
    var old_, new_ := Worth(DigitAt(s, i), right), Worth(c as int - '0' as int, right);
    SumAfterChange(s, i, c);
    WorthDistinct(c as int - '0' as int, DigitAt(s, i), right);
    ModShift(LuhnSum(s), new_ - old_);
  }

  lemma ModShift(sum: int, delta: int)
    requires sum % 10 == 0
    ensures (sum + delta) % 10 == 0 <==> delta % 10 == 0
  {
  }

  lemma {:induction false} SumWithCheckDigit(s: string, c: char)
    ensures LuhnSum(s + [c]) == LuhnSum(s + "0") + (c as int - '0' as int)
  {
    var t := s + "0";
    SumAfterChange(t, |s|, c);
    assert t[|s| := c] == s + [c];
  }

  function CheckDigit(s: string): (c: char)
    ensures IsDigit(c)
  {
    ('0' as int + (10 - LuhnSum(s + "0") % 10) % 10) as char
  }

  /** Every prefix has exactly one last digit that completes it. */
  lemma ExactlyOneCheckDigit(s: string, c: char)
    requires IsDigit(c)
    ensures Luhn(s + [c]) <==> c == CheckDigit(s)
  {
    SumWithCheckDigit(s, c);
  }

  /** Swapping two different neighbours goes unnoticed exactly for 0 and 9. */
  lemma SwapNoticed(s: string, i: nat)
    requires i + 1 < |s| && AllDigits(s) && Luhn(s) && s[i] != s[i + 1]
    ensures Luhn(s[i := s[i + 1]][i + 1 := s[i]]) <==> {s[i], s[i + 1]} == {'0', '9'}
  {
    SwapShifts(s, i);
    SwapDelta(DigitAt(s, i), DigitAt(s, i + 1), |s| - 1 - i);
    ZeroAndNine(s[i], s[i + 1]);
  }

  /** What swapping two neighbours adds to the sum. */
  function Delta(a: int, b: int, right: nat): int
    requires right >= 1
  {
    Worth(b, right) - Worth(a, right) + Worth(a, right - 1) - Worth(b, right - 1)
  }

  lemma SwapShifts(s: string, i: nat)
    requires i + 1 < |s| && AllDigits(s) && Luhn(s)
    ensures Luhn(s[i := s[i + 1]][i + 1 := s[i]]) <==> Delta(DigitAt(s, i), DigitAt(s, i + 1), |s| - 1 - i) % 10 == 0
  {
    SumAfterChange(s, i, s[i + 1]);
    SumAfterChange(s[i := s[i + 1]], i + 1, s[i]);
    ModShift(LuhnSum(s), Delta(DigitAt(s, i), DigitAt(s, i + 1), |s| - 1 - i));
  }

  lemma ZeroAndNine(x: char, y: char)
    ensures {x, y} == {'0', '9'} <==> (x == '0' && y == '9') || (x == '9' && y == '0')
  {
    if {x, y} == {'0', '9'} {
      assert x in {x, y} && y in {x, y} && '0' in {x, y} && '9' in {x, y};
    }
  }

  lemma SwapDelta(a: int, b: int, right: nat)
    requires 0 <= a <= 9 && 0 <= b <= 9 && a != b && right >= 1
    ensures Delta(a, b, right) % 10 == 0
            <==> (a == 0 && b == 9) || (a == 9 && b == 0)
  {
  }
}
