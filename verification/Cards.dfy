/**
 Which card numbers Redact masks (internal/logs/redact.go): the match that the
 regular expression engine reports is determined by the pattern, and so is
 every stretch of the line that is masked.
 */
module Cards {
  import opened Prelude
  import opened Redact

  // ---- the match at a place ----

  /** The end of the first n digits from i on, with at most one separator between neighbours. */
  function RunEnd(s: string, i: nat, n: nat): (r: Option<nat>)
    requires n >= 1
    ensures r.Some? ==> i < r.value <= |s| && IsDigit(s[i]) && IsDigit(s[r.value - 1])
    decreases n
  {
    if i >= |s| || !IsDigit(s[i]) then None
    else if n == 1 then Some(i + 1)
    else if i + 1 < |s| && IsSeparator(s[i + 1]) then RunEnd(s, i + 2, n - 1)
    else RunEnd(s, i + 1, n - 1)
  }

  /** Repetition is greedy: the most digits, at most n and at least 13, that end at a word boundary. */
  function LongestEnd(s: string, i: nat, n: nat): (r: Option<nat>)
    ensures r.Some? ==> i < r.value <= |s| && IsDigit(s[i])
  {
    if n < 13 then None
    else
      match RunEnd(s, i, n)
      case None => LongestEnd(s, i, n - 1)
      case Some(j) => if WordBoundary(s, j) then Some(j) else LongestEnd(s, i, n - 1)
  }

  /** The end of the match of the card pattern at i. */
  function CardEnd(s: string, i: nat): (r: Option<nat>)
    ensures r.Some? ==> i < r.value <= |s| && IsDigit(s[i])
  {
    if i < |s| && WordBoundary(s, i) then LongestEnd(s, i, 19) else None
  }

  // ---- it is a match of the pattern, and the longest ----

  /** A digit, alone or with a separator. */
  predicate IsPart(u: string) {
    (|u| == 1 && IsDigit(u[0])) || (|u| == 2 && IsDigit(u[0]) && IsSeparator(u[1]))
  }

  lemma {:induction false} FrontPart(u: string, t: string, n: nat)
    requires IsPart(u) && Repeats(t, n)
    ensures Repeats(u + t, n + 1)
    decreases n
  {
    var w := u + t;
    if n == 0 {
      assert w == u && Repeats("", 0);
      assert w[..|w| - |u|] == "";
    } else {
      var k := if IsDigit(t[|t| - 1]) && Repeats(t[..|t| - 1], n - 1) then 1 else 2;
      FrontPart(u, t[..|t| - k], n - 1);
      assert w[..|w| - k] == u + t[..|t| - k];
    }
  }

  /** The first part can be split off. */
  lemma {:induction false} SplitFront(t: string, n: nat) returns (k: nat)
    requires n > 0 && Repeats(t, n)
    ensures 1 <= k <= |t| && IsPart(t[..k]) && Repeats(t[k..], n - 1)
    decreases n
  {
    var last := if IsDigit(t[|t| - 1]) && Repeats(t[..|t| - 1], n - 1) then 1 else 2;
    var front := t[..|t| - last];
    if n == 1 {
      assert front == "";
      k := |t|;
      assert t[..k] == t && t[k..] == "";
    } else {
      k := SplitFront(front, n - 1);
      assert front[..k] == t[..k] && t[k..][..|t[k..]| - last] == front[k..];
      assert t[k..] != "" && t[k..][|t[k..]| - 1] == t[|t| - 1];
      if last == 2 { assert t[k..][|t[k..]| - 2] == t[|t| - 2]; }
    }
  }

  lemma {:induction false} RunEndRepeats(s: string, i: nat, n: nat)
    requires n >= 1 && RunEnd(s, i, n).Some?
    ensures Repeats(s[i..RunEnd(s, i, n).value - 1], n - 1)
    decreases n
  {
    var j := RunEnd(s, i, n).value;
    if n > 1 {
      var k := if IsSeparator(s[i + 1]) then 2 else 1;
      RunEndRepeats(s, i + k, n - 1);
      JoinFront(s, i, i + k, j - 1, n - 2);
    }
  }

  lemma JoinFront(s: string, i: nat, k: nat, j: nat, n: nat)
    requires i <= k <= j <= |s| && IsPart(s[i..k]) && Repeats(s[k..j], n)
    ensures Repeats(s[i..j], n + 1)
  {
    FrontPart(s[i..k], s[k..j], n);
    assert s[i..j] == s[i..k] + s[k..j];
  }

  lemma {:induction false} RepeatsRunEnd(s: string, i: nat, j: nat, n: nat)
    requires i < j <= |s| && IsDigit(s[j - 1]) && Repeats(s[i..j - 1], n)
    ensures RunEnd(s, i, n + 1) == Some(j)
    decreases n
  {
    var t := s[i..j - 1];
    if n > 0 {
      var k := SplitFront(t, n);
      assert t[k..] == s[i + k..j - 1] && t[..k] == s[i..i + k];
      RepeatsRunEnd(s, i + k, j, n - 1);
      assert s[i] == t[0] && (k == 2 ==> s[i + 1] == t[1]);
      assert k == 1 ==> IsDigit(s[i + 1]);
    }
  }

  /** i and j are the ends of n digits in a run. */
  ghost predicate RunsTo(s: string, i: nat, j: nat, n: nat) {
    n >= 1 && RunEnd(s, i, n) == Some(j)
  }

  /** The pattern matches s[i..j] exactly when 13 to 19 digits run from i to j between word boundaries. */
  lemma MatchIsRun(s: string, i: nat, j: nat)
    ensures CardMatch(s, i, j) <==>
            i < j <= |s| && WordBoundary(s, i) && WordBoundary(s, j) && exists n :: 13 <= n <= 19 && RunsTo(s, i, j, n)
  {
    if CardMatch(s, i, j) {
      var n :| 12 <= n <= 18 && Repeats(s[i..j - 1], n);
      RepeatsRunEnd(s, i, j, n);
      assert RunsTo(s, i, j, n + 1);
    }
    if i < j <= |s| && WordBoundary(s, i) && WordBoundary(s, j) && exists n :: 13 <= n <= 19 && RunsTo(s, i, j, n) {
      var n :| 13 <= n <= 19 && RunsTo(s, i, j, n);
      RunEndRepeats(s, i, n);
      assert CardBody(s[i..j - 1]);
    }
  }

  /** More digits end later. */
  lemma {:induction false} RunEndRises(s: string, i: nat, m: nat, n: nat)
    requires 1 <= m < n && RunEnd(s, i, n).Some?
    ensures RunEnd(s, i, m).Some? && RunEnd(s, i, m).value < RunEnd(s, i, n).value
    decreases m
  {
    if m > 1 {
      RunEndRises(s, if i + 1 < |s| && IsSeparator(s[i + 1]) then i + 2 else i + 1, m - 1, n - 1);
    }
  }

  lemma {:induction false} LongestOf(s: string, i: nat, n: nat)
    requires n <= 19
    ensures var r := LongestEnd(s, i, n);
            && (r.Some? ==> i < r.value <= |s| && WordBoundary(s, r.value))
            && (r.Some? ==> exists k :: 13 <= k <= n && RunsTo(s, i, r.value, k))
            && (forall k, j: nat :: 13 <= k <= n && RunsTo(s, i, j, k) && WordBoundary(s, j) ==>
                  r.Some? && j <= r.value)
  {
    if n >= 13 {
      LongestOf(s, i, n - 1);
      var r := RunEnd(s, i, n);
      if r.Some? && WordBoundary(s, r.value) {
        assert RunsTo(s, i, r.value, n);
        forall k, j | 13 <= k <= n && RunsTo(s, i, j, k) ensures j <= r.value {
          if k < n { RunEndRises(s, i, k, n); }
        }
      }
    }
  }

  /** The engine's match is the longest one. */
  lemma LongestMatch(s: string, i: nat, j: nat)
    ensures CardEnd(s, i) == Some(j) <==> CardMatch(s, i, j) && forall m :: m > j ==> !CardMatch(s, i, m)
  {
    LongestOf(s, i, 19);
    MatchIsRun(s, i, j);
    forall m | m > j && CardMatch(s, i, m) ensures CardEnd(s, i).Some? && CardEnd(s, i).value >= m {
      MatchIsRun(s, i, m);
    }
    if CardEnd(s, i).Some? { MatchIsRun(s, i, CardEnd(s, i).value); }
  }

  lemma EngineMatchesCards()
    ensures MatchesCards(CardEnd)
  {
    forall s: string, i: nat, j: nat | CardEnd(s, i) == Some(j) ensures CardMatch(s, i, j) {
      LongestMatch(s, i, j);
    }
  }

  /** The card step of Redact: the pattern is tried only on lines the prefilter lets through. */
  method RedactCards(s: string) returns (r: string)
    ensures r == MaskCards(s, 0, CardEnd)
  {
    var worthwhile := HasDigitRun(s, 13);
    if !worthwhile {
      EngineMatchesCards();
      PrefilterHidesNothing(s, 0, CardEnd);
      assert s[0..] == s;
      return s;
    }
    return MaskCards(s, 0, CardEnd);
  }

  // ---- what is masked ----

  /** The matches from i on, from left to right without overlap. */
  function Spans(s: string, i: nat): seq<(nat, nat)>
    decreases |s| - i
  {
    if i >= |s| then []
    else
      match CardEnd(s, i)
      case Some(j) => [(i, j)] + Spans(s, j)
      case None => Spans(s, i + 1)
  }

  /** The line with the matches that pass the Luhn check masked. */
  function Masked(s: string, i: nat, spans: seq<(nat, nat)>): string
    decreases |spans|
  {
    if spans == [] then s[Min(i, |s|)..]
    else
      var (a, b) := spans[0];
      if i <= a < b <= |s| then
        s[i..a] + (if Luhn(Digits(s[a..b])) then MASK else s[a..b]) + Masked(s, b, spans[1..])
      else ""
  }

  ghost predicate Found(s: string, i: nat, a: nat, b: nat) {
    (a, b) in Spans(s, i)
  }

  lemma {:induction false} SpansLater(s: string, i: nat, a: nat, b: nat)
    requires Found(s, i, a, b)
    ensures i <= a < b <= |s|
    decreases |s| - i
  {
    FoundStep(s, i, a, b);
    if !(CardEnd(s, i) == Some(b) && a == i) {
      SpansLater(s, NextPlace(s, i), a, b);
    }
  }

  /** Where the search goes on. */
  function NextPlace(s: string, i: nat): (k: nat)
    ensures i < k && (i < |s| ==> k <= |s|)
  {
    match CardEnd(s, i) case Some(j) => j case None => i + 1
  }

  lemma FoundStep(s: string, i: nat, a: nat, b: nat)
    ensures Found(s, i, a, b) <==> i < |s| && ((a == i && CardEnd(s, i) == Some(b)) || Found(s, NextPlace(s, i), a, b))
  {
  }

  /** A match found from i on begins before a and ends after it. */
  ghost predicate Crossed(s: string, i: nat, a: nat) {
    exists x: nat, y: nat :: Found(s, i, x, y) && x < a < y
  }

  lemma CrossedStep(s: string, i: nat, a: nat)
    requires i < a && i < |s|
    ensures Crossed(s, i, a) <==>
            (CardEnd(s, i).Some? && a < CardEnd(s, i).value) || Crossed(s, NextPlace(s, i), a)
  {
    if Crossed(s, i, a) {
      var x: nat, y: nat :| Found(s, i, x, y) && x < a < y;
      FoundStep(s, i, x, y);
    }
    if Crossed(s, NextPlace(s, i), a) {
      var x: nat, y: nat :| Found(s, NextPlace(s, i), x, y) && x < a < y;
      FoundStep(s, i, x, y);
    }
    if CardEnd(s, i).Some? && a < CardEnd(s, i).value {
      FoundStep(s, i, i, CardEnd(s, i).value);
    }
  }

  lemma NotBefore(s: string, i: nat, a: nat)
    requires a <= i
    ensures !Crossed(s, i, a) && forall b: nat :: a < i ==> !Found(s, i, a, b)
  {
    forall x: nat, y: nat | Found(s, i, x, y) ensures i <= x { SpansLater(s, i, x, y); }
  }

  lemma {:induction false} FoundIff(s: string, i: nat, a: nat, b: nat)
    requires i <= a < |s|
    ensures Found(s, i, a, b) <==> CardEnd(s, a) == Some(b) && !Crossed(s, i, a)
    decreases |s| - i
  {
    var k := NextPlace(s, i);
    FoundStep(s, i, a, b);
    if i == a {
      NotBefore(s, i, a);
      NotBefore(s, k, a);
    } else {
      CrossedStep(s, i, a);
      if k <= a { FoundIff(s, k, a, b); } else { NotBefore(s, k, a); }
    }
  }

  /** A match always has the number of digits that is asked for. */
  lemma {:induction false} DigitsOfRun(t: string, n: nat)
    requires DigitRun(t, n)
    ensures |Digits(t)| == n
    decreases n
  {
    if n == 1 {
      assert t[..0] == "";
    } else if DigitRun(t[..|t| - 1], n - 1) {
      DigitsOfRun(t[..|t| - 1], n - 1);
    } else {
      DigitsOfRun(t[..|t| - 2], n - 1);
      assert t[..|t| - 1][..|t| - 2] == t[..|t| - 2];
    }
  }

  lemma DigitsOfMatch(s: string, i: nat, j: nat)
    requires CardMatch(s, i, j)
    ensures 13 <= |Digits(s[i..j])| <= 19
  {
    var n :| 12 <= n <= 18 && Repeats(s[i..j - 1], n);
    assert s[i..j][..j - i - 1] == s[i..j - 1];
    RepeatsIsRun(s[i..j], n);
    DigitsOfRun(s[i..j], n + 1);
  }

  /** The card step masks exactly the matches it finds that pass the Luhn check; the rest of the line stays. */
  lemma {:induction false} MaskCardsIs(s: string, i: nat)
    ensures MaskCards(s, i, CardEnd) == Masked(s, i, Spans(s, i))
    decreases |s| - i
  {
    if i < |s| {
      match CardEnd(s, i) {
        case Some(j) =>
          MaskCardsIs(s, j);
          LongestMatch(s, i, j);
          DigitsOfMatch(s, i, j);
          MaskedHere(s, i, j, Spans(s, j));
        case None =>
          MaskCardsIs(s, i + 1);
          FirstIsLater(s, i + 1);
          MaskedLater(s, i, Spans(s, i + 1));
      }
    }
  }

  lemma MaskedHere(s: string, i: nat, j: nat, rest: seq<(nat, nat)>)
    requires i < j <= |s|
    ensures Masked(s, i, [(i, j)] + rest) == (if Luhn(Digits(s[i..j])) then MASK else s[i..j]) + Masked(s, j, rest)
  {
    var piece := if Luhn(Digits(s[i..j])) then MASK else s[i..j];
    assert ([(i, j)] + rest)[1..] == rest;
    assert s[i..i] + piece == piece;
  }

  lemma FirstIsLater(s: string, i: nat)
    ensures var spans := Spans(s, i);
            spans != [] ==> i <= spans[0].0 < spans[0].1 <= |s|
  {
    var spans := Spans(s, i);
    if spans != [] { SpansLater(s, i, spans[0].0, spans[0].1); }
  }

  lemma MaskedLater(s: string, i: nat, spans: seq<(nat, nat)>)
    requires i < |s| && (spans != [] ==> i < spans[0].0 < spans[0].1 <= |s|)
    ensures Masked(s, i, spans) == [s[i]] + Masked(s, i + 1, spans)
  {
    if spans == [] {
      assert s[i..] == [s[i]] + s[i + 1..];
    } else {
      var (a, b) := spans[0];
      Prepend(s, i, a, if Luhn(Digits(s[a..b])) then MASK else s[a..b], Masked(s, b, spans[1..]));
    }
  }

  lemma Prepend(s: string, i: nat, a: nat, piece: string, rest: string)
    requires i < a <= |s|
    ensures s[i..a] + piece + rest == [s[i]] + (s[i + 1..a] + piece + rest)
  {
    assert s[i..a] == [s[i]] + s[i + 1..a];
  }

  /** The stretch is a match that the card step finds and replaces. */
  ghost predicate IsMasked(s: string, a: nat, b: nat)
    requires a <= b <= |s|
  {
    Found(s, 0, a, b) && Luhn(Digits(s[a..b]))
  }

  /**
   A number between word boundaries, 13 to 19 digits with single separators,
   is masked as such if and only if it passes the Luhn check, no longer match
   begins where it begins, and no match found before it reaches into it.
   */
  lemma MaskedIff(s: string, a: nat, b: nat)
    requires CardMatch(s, a, b)
    ensures IsMasked(s, a, b) <==>
            Luhn(Digits(s[a..b])) && (forall m :: m > b ==> !CardMatch(s, a, m)) && !Crossed(s, 0, a)
  {
    FoundIff(s, 0, a, b);
    LongestMatch(s, a, b);
  }

  // ---- numbers that stand alone ----

  /** No digit is joined to the stretch by a single separator. */
  predicate Alone(s: string, a: nat, b: nat)
    requires a <= b <= |s|
  {
    && !(a >= 2 && IsSeparator(s[a - 1]) && IsDigit(s[a - 2]))
    && !(b + 1 < |s| && IsSeparator(s[b]) && IsDigit(s[b + 1]))
  }

  /** Within a run every character is a digit, or a separator between two. */
  lemma {:induction false} InsideRun(s: string, i: nat, n: nat, k: nat)
    requires n >= 1 && RunEnd(s, i, n).Some? && i < k < RunEnd(s, i, n).value
    ensures IsDigit(s[k]) || (IsSeparator(s[k]) && k + 1 < |s| && IsDigit(s[k - 1]) && IsDigit(s[k + 1]))
    decreases n
  {
    var next := if i + 1 < |s| && IsSeparator(s[i + 1]) then i + 2 else i + 1;
    if n > 1 && k > next { InsideRun(s, next, n - 1, k); }
  }

  lemma InsideMatch(s: string, i: nat, j: nat, k: nat)
    requires CardMatch(s, i, j) && i < k < j
    ensures IsDigit(s[k]) || (IsSeparator(s[k]) && k + 1 < |s| && IsDigit(s[k - 1]) && IsDigit(s[k + 1]))
  {
    MatchIsRun(s, i, j);
    var n :| 13 <= n <= 19 && RunsTo(s, i, j, n);
    InsideRun(s, i, n, k);
  }

  lemma FoundMatches(s: string, i: nat, x: nat, y: nat)
    requires Found(s, i, x, y)
    ensures CardMatch(s, x, y)
    decreases |s| - i
  {
    FoundStep(s, i, x, y);
    if x == i && CardEnd(s, i) == Some(y) { LongestMatch(s, i, y); } else { FoundMatches(s, NextPlace(s, i), x, y); }
  }

  lemma EndsAreDigits(s: string, i: nat, j: nat)
    requires CardMatch(s, i, j)
    ensures IsDigit(s[i]) && IsDigit(s[j - 1])
  {
    MatchIsRun(s, i, j);
    var n :| 13 <= n <= 19 && RunsTo(s, i, j, n);
  }

  /** A match before a number that stands alone ends before it. */
  lemma NotReached(s: string, a: nat, b: nat, x: nat, y: nat)
    requires CardMatch(s, a, b) && Alone(s, a, b) && CardMatch(s, x, y) && x < a
    ensures y <= a
  {
    EndsAreDigits(s, a, b);
    EndsAreDigits(s, x, y);
    if x < a - 1 < y { InsideMatch(s, x, y, a - 1); }
  }

  /** A number that stands alone is masked if and only if it passes the Luhn check. */
  lemma AloneIsMasked(s: string, a: nat, b: nat)
    requires CardMatch(s, a, b) && Alone(s, a, b)
    ensures IsMasked(s, a, b) <==> Luhn(Digits(s[a..b]))
  {
    MatchIsRun(s, a, b);
    forall m | m > b ensures !CardMatch(s, a, m) {
      if CardMatch(s, a, m) { InsideMatch(s, a, m, b); }
    }
    forall x: nat, y: nat | Found(s, 0, x, y) ensures !(x < a < y) {
      FoundMatches(s, 0, x, y);
      if x < a < y { NotReached(s, a, b, x, y); }
    }
    MaskedIff(s, a, b);
  }

  // ---- a number in groups ----

  /** Two runs with one separator between them are one. */
  lemma {:induction false} RunsJoin(s: string, i: nat, m: nat, j: nat, n: nat)
    requires m >= 1 && n >= 1 && RunEnd(s, i, m) == Some(j) && j < |s| && IsSeparator(s[j])
    requires RunEnd(s, j + 1, n).Some?
    ensures RunEnd(s, i, m + n) == RunEnd(s, j + 1, n)
    decreases m
  {
    if m > 1 {
      RunsJoin(s, if IsSeparator(s[i + 1]) then i + 2 else i + 1, m - 1, j, n);
    }
  }

  lemma {:induction false} DigitsRun(s: string, i: nat, j: nat)
    requires i < j <= |s| && forall k :: i <= k < j ==> IsDigit(s[k])
    ensures RunEnd(s, i, j - i) == Some(j)
    decreases j - i
  {
    if i + 1 < j {
      DigitsRun(s, i + 1, j);
    }
  }

  function Grouped(d: string, sep: char): string
    requires |d| == 16
  {
    d[..4] + [sep] + d[4..8] + [sep] + d[8..12] + [sep] + d[12..]
  }

  lemma GroupedMatches(d: string, sep: char)
    requires |d| == 16 && AllDigits(d) && (sep == ' ' || sep == '-')
    ensures CardEnd(Grouped(d, sep), 0) == Some(19)
  {
    var s := Grouped(d, sep);
    assert s[4] == sep && s[9] == sep && s[14] == sep;
    DigitsRun(s, 0, 4);
    DigitsRun(s, 5, 9);
    DigitsRun(s, 10, 14);
    DigitsRun(s, 15, 19);
    RunsJoin(s, 10, 4, 14, 4);
    RunsJoin(s, 5, 4, 9, 8);
    RunsJoin(s, 0, 4, 4, 12);
    assert RunsTo(s, 0, 19, 16);
    MatchIsRun(s, 0, 19);
    LongestMatch(s, 0, 19);
  }

  lemma GroupedDigits(d: string, sep: char)
    requires |d| == 16 && AllDigits(d) && (sep == ' ' || sep == '-')
    ensures Digits(Grouped(d, sep)) == d
  {
    var a, b, c, e := d[..4], d[4..8], d[8..12], d[12..];
    DigitsOver(a + [sep] + b + [sep] + c + [sep], e);
    DigitsOver(a + [sep] + b + [sep] + c, [sep]);
    DigitsOver(a + [sep] + b + [sep], c);
    DigitsOver(a + [sep] + b, [sep]);
    DigitsOver(a + [sep], b);
    DigitsOver(a, [sep]);
    DigitsOfDigits(a);
    DigitsOfDigits(b);
    DigitsOfDigits(c);
    DigitsOfDigits(e);
    assert [sep][..0] == "" && Digits([sep]) == "";
    assert d == a + b + c + e;
  }

  /** Sixteen digits in groups of four, with spaces or dashes, are masked if and only if they pass the Luhn check. */
  lemma GroupedIsMasked(d: string, sep: char)
    requires |d| == 16 && AllDigits(d) && (sep == ' ' || sep == '-')
    ensures MaskCards(Grouped(d, sep), 0, CardEnd) == if Luhn(d) then "***" else Grouped(d, sep)
  {
    var s := Grouped(d, sep);
    GroupedMatches(d, sep);
    GroupedDigits(d, sep);
    assert s[0..19] == s && MaskCards(s, 19, CardEnd) == "";
  }

  // ---- a valid number that goes out ----

  lemma {:induction false} PlainRun(s: string, i: nat)
    requires i < |s| && forall k :: i <= k < |s| ==> IsDigit(s[k])
    ensures RunEnd(s, i, |s| - i) == Some(|s|)
    decreases |s| - i
  {
    if i + 1 < |s| {
      PlainRun(s, i + 1);
    }
  }

  lemma {:induction false} DigitsOfDigits(t: string)
    requires AllDigits(t)
    ensures Digits(t) == t
  {
    if t != "" {
      DigitsOfDigits(t[..|t| - 1]);
    }
  }

  lemma {:induction false} DigitsOver(a: string, b: string)
    ensures Digits(a + b) == Digits(a) + Digits(b)
    decreases |b|
  {
    if b == "" {
      assert a + b == a;
    } else {
      DigitsOver(a, b[..|b| - 1]);
      assert (a + b)[..|a + b| - 1] == a + b[..|b| - 1];
    }
  }

  lemma DigitsOfTwo(x: char)
    requires IsDigit(x)
    ensures Digits([x, ' ']) == [x]
  {
    assert [x, ' '][..1] == [x] && [x][..0] == [];
    assert Digits([x]) == Digits([]) + [x] == [x];
    assert Digits([x, ' ']) == Digits([x]) + [];
  }

  lemma SumCons(c: char, t: string)
    ensures LuhnSum([c] + t) == Worth(c as int - '0' as int, |t|) + LuhnSum(t)
  {
    assert ([c] + t)[1..] == t;
  }

  /** One more digit in front of a valid number is noticed unless it is 0. */
  lemma ExtraDigit(x: char, card: string)
    requires IsDigit(x) && Luhn(card)
    ensures Luhn([x] + card) <==> x == '0'
  {
    SumCons(x, card);
    WorthModTen(x as int - '0' as int, |card|);
    ModSum(Worth(x as int - '0' as int, |card|), LuhnSum(card));
  }

  lemma WorthModTen(d: int, right: nat)
    requires 0 <= d <= 9
    ensures 0 <= Worth(d, right) <= 9 && (Worth(d, right) == 0 <==> d == 0)
  {
  }

  lemma ModSum(w: int, sum: int)
    requires 0 <= w <= 9 && sum % 10 == 0
    ensures (w + sum) % 10 == 0 <==> w == 0
  {
  }

  lemma ExtraDigitMatches(s: string)
    requires 15 <= |s| <= 20 && IsDigit(s[0]) && s[1] == ' ' && forall k :: 2 <= k < |s| ==> IsDigit(s[k])
    ensures CardEnd(s, 0) == Some(|s|) && CardMatch(s, 2, |s|)
  {
    var n := |s| - 2;
    PlainRun(s, 2);
    assert RunsTo(s, 2, |s|, n);
    MatchIsRun(s, 2, |s|);
    assert RunsTo(s, 0, |s|, n + 1);
    MatchIsRun(s, 0, |s|);
    assert CardMatch(s, 0, |s|);
    LongestMatch(s, 0, |s|);
  }

  lemma OneMatch(s: string)
    requires s != "" && CardEnd(s, 0) == Some(|s|) && !Luhn(Digits(s))
    ensures MaskCards(s, 0, CardEnd) == s
  {
    assert s[0..|s|] == s;
    assert MaskCards(s, |s|, CardEnd) == "";
  }

  /**
   "Bare card numbers" are not always masked: in a line of a digit other than 0,
   a space and a valid number, the match takes that digit too and then fails the
   Luhn check, and the line goes out as it is.
   */
  lemma NeighbourHidesCard(x: char, card: string)
    requires IsDigit(x) && x != '0' && AllDigits(card) && 13 <= |card| <= 18 && Luhn(card)
    ensures var s := [x, ' '] + card;
            && CardMatch(s, 2, |s|) && s[2..] == card && Luhn(Digits(card)) && MaskCards(s, 0, CardEnd) == s
  {
    var s := [x, ' '] + card;
    ExtraDigitMatches(s);
    DigitsOfDigits(card);
    DigitsOfTwo(x);
    DigitsOver([x, ' '], card);
    ExtraDigit(x, card);
    OneMatch(s);
  }

  lemma {:induction false} OnesSum(t: string)
    requires forall i :: 0 <= i < |t| ==> t[i] == '1'
    ensures LuhnSum(t) == |t| + |t| / 2
  {
    if t != "" {
      OnesSum(t[1..]);
    }
  }

  /** One such number: a 4 and fifteen ones. */
  lemma CardAfterDigit(ones: string)
    requires ones == seq(15, _ => '1')
    ensures Luhn(['4'] + ones) && MaskCards("1 " + (['4'] + ones), 0, CardEnd) == "1 " + (['4'] + ones)
  {
    OnesSum(ones);
    SumCons('4', ones);
    NeighbourHidesCard('1', ['4'] + ones);
  }
}
