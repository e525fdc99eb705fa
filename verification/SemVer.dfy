/** Release versions (internal/upgrade/semver.go). */
module SemVer {
  import opened Prelude

  /** The largest Go int on the 64-bit platforms the agent is released for. */
  const MAX_INT: nat := 0x7fff_ffff_ffff_ffff

  /** major, minor, patch */
  type Triple = t: seq<nat> | |t| == 3 witness [0, 0, 0]

  datatype CompareError = BadCurrent | BadCandidate

  function Value(s: string): nat
    requires AllDigits(s)
  {
    if s == [] then 0 else 10 * Value(s[..|s| - 1]) + (s[|s| - 1] as int - '0' as int)
  }

  /** strconv.Atoi on a text without a sign. */
  function Atoi(s: string): Option<nat> {
    if s != "" && AllDigits(s) && Value(s) <= MAX_INT then Some(Value(s)) else None
  }

  /** The index of the first dot, or the length. */
  function IndexDot(s: string): (i: nat)
    ensures i <= |s| && '.' !in s[..i] && (i < |s| ==> s[i] == '.')
  {
    if s == "" || s[0] == '.' then 0
    else
      assert s[..1 + IndexDot(s[1..])] == [s[0]] + s[1..][..IndexDot(s[1..])];
      1 + IndexDot(s[1..])
  }

  /** strings.SplitN(s, ".", n) for n > 0. */
  function SplitN(s: string, n: nat): (parts: seq<string>)
    requires n > 0
    ensures 1 <= |parts| <= n
  {
    var i := IndexDot(s);
    if n == 1 || i == |s| then [s] else [s[..i]] + SplitN(s[i + 1..], n - 1)
  }

  function TrimV(v: string): string {
    if v != "" && v[0] == 'v' then v[1..] else v
  }

  /** What parseVersion accepts and returns. */
  function Parse(v: string): Option<Triple> {
    var s := TrimV(v);
    var parts := SplitN(s, 3);
    if '-' in s || '+' in s || |parts| != 3 then None
    else
      match (Atoi(parts[0]), Atoi(parts[1]), Atoi(parts[2]))
      case (Some(a), Some(b), Some(c)) => Some([a, b, c])
      case _ => None
  }

  method ParseVersion(v: string) returns (r: Option<Triple>)
    ensures r == Parse(v)
  {
    var s := TrimV(v);
    if '-' in s || '+' in s {
      return None;
    }
    var parts := SplitN(s, 3);
    if |parts| != 3 {
      return None;
    }
    var out: seq<nat> := [0, 0, 0];
    var i := 0;
    while i < 3
      invariant 0 <= i <= 3 && |out| == 3
      invariant forall k :: 0 <= k < i ==> Atoi(parts[k]) == Some(out[k])
    {
      var n := Atoi(parts[i]);
      if n.None? {
        return None;
      }
      out := out[i := n.value];
      i := i + 1;
    }
    assert out == [out[0], out[1], out[2]];
    r := Some(out);
  }

  // ---- which texts are versions ----

  lemma {:induction false} IndexDotOf(a: string, b: string)
    requires '.' !in a
    ensures IndexDot(a + "." + b) == |a|
  {
    if a != [] {
      IndexDotOf(a[1..], b);
      assert (a + "." + b)[1..] == a[1..] + "." + b;
    }
  }

  lemma DigitsPlain(s: string, c: char)
    requires AllDigits(s) && !IsDigit(c)
    ensures c !in s
  {
  }

  lemma SplitThree(a: string, b: string, c: string)
    requires '.' !in a && '.' !in b
    ensures SplitN(a + "." + b + "." + c, 3) == [a, b, c]
  {
    var rest := b + "." + c;
    assert a + "." + b + "." + c == a + "." + rest;
    IndexDotOf(a, rest);
    IndexDotOf(b, c);
    var s := a + "." + rest;
    assert s[..|a|] == a && s[|a| + 1..] == rest;
    assert rest[..|b|] == b && rest[|b| + 1..] == c;
    assert SplitN(c, 1) == [c];
    assert SplitN(rest, 2) == [b] + [c];
    assert SplitN(s, 3) == [a] + SplitN(rest, 2);
  }

  lemma CutAt(s: string, i: nat)
    requires i < |s| && s[i] == '.'
    ensures s == s[..i] + "." + s[i + 1..]
  {
    assert [s[i]] == ".";
  }

  lemma Reassociate(a: string, b: string, c: string)
    ensures a + "." + (b + "." + c) == a + "." + b + "." + c
  {
  }

  lemma SplitShape(s: string)
    requires |SplitN(s, 3)| == 3
    ensures IndexDot(s) < |s| && IndexDot(s[IndexDot(s) + 1..]) < |s[IndexDot(s) + 1..]|
    ensures var i := IndexDot(s);
            var rest := s[i + 1..];
            var j := IndexDot(rest);
            SplitN(s, 3) == [s[..i], rest[..j], rest[j + 1..]]
  {
    var i := IndexDot(s);
    var rest := s[i + 1..];
    var j := IndexDot(rest);
    assert SplitN(s, 3) == [s[..i]] + SplitN(rest, 2);
    assert SplitN(rest, 2) == [rest[..j]] + SplitN(rest[j + 1..], 1);
  }

  lemma SplitJoined(s: string)
    requires |SplitN(s, 3)| == 3
    ensures var p := SplitN(s, 3); s == p[0] + "." + p[1] + "." + p[2]
  {
    SplitShape(s);
    var i := IndexDot(s);
    var rest := s[i + 1..];
    var j := IndexDot(rest);
    CutAt(s, i);
    CutAt(rest, j);
    Reassociate(s[..i], rest[..j], rest[j + 1..]);
  }

  /** s is three numbers with dots between them, the ones of t. */
  ghost predicate Spells(s: string, t: Triple, a: string, b: string, c: string) {
    s == a + "." + b + "." + c && Atoi(a) == Some(t[0]) && Atoi(b) == Some(t[1]) && Atoi(c) == Some(t[2])
  }

  lemma SpelledParses(v: string, t: Triple, a: string, b: string, c: string)
    requires Spells(TrimV(v), t, a, b, c)
    ensures Parse(v) == Some(t)
  {
    DigitsPlain(a, '.');
    DigitsPlain(b, '.');
    SplitThree(a, b, c);
    var s := TrimV(v);
    assert forall i :: 0 <= i < |s| ==> IsDigit(s[i]) || s[i] == '.';
    assert '-' !in s && '+' !in s;
    assert t == [t[0], t[1], t[2]];
  }

  function Digit(d: nat): char
    requires d < 10
  {
    ('0' as int + d) as char
  }

  /** A number written in decimal. */
  function Decimal(n: nat): string {
    if n < 10 then [Digit(n)] else Decimal(n / 10) + [Digit(n % 10)]
  }

  function Zeros(k: nat): string {
    seq(k, _ => '0')
  }

  lemma ValueLast(s: string, c: char)
    requires AllDigits(s) && IsDigit(c)
    ensures AllDigits(s + [c]) && Value(s + [c]) == 10 * Value(s) + (c as int - '0' as int)
  {
    assert (s + [c])[..|s|] == s;
  }

  lemma {:induction false} ValueOfZeros(k: nat)
    ensures AllDigits(Zeros(k)) && Value(Zeros(k)) == 0
  {
    if k > 0 {
      ValueOfZeros(k - 1);
      assert Zeros(k) == Zeros(k - 1) + ['0'];
      ValueLast(Zeros(k - 1), '0');
    }
  }

  lemma {:induction false} ValueOfDecimal(k: nat, n: nat)
    ensures AllDigits(Zeros(k) + Decimal(n)) && Value(Zeros(k) + Decimal(n)) == n
    decreases n
  {
    if n < 10 {
      ValueOfZeros(k);
      ValueLast(Zeros(k), Digit(n));
    } else {
      ValueOfDecimal(k, n / 10);
      ValueLast(Zeros(k) + Decimal(n / 10), Digit(n % 10));
      assert Zeros(k) + Decimal(n) == Zeros(k) + Decimal(n / 10) + [Digit(n % 10)];
    }
  }

  lemma {:induction false} DecimalOfValue(s: string) returns (k: nat)
    requires s != "" && AllDigits(s)
    ensures s == Zeros(k) + Decimal(Value(s))
  {
    var t, c := s[..|s| - 1], s[|s| - 1];
    assert s == t + [c];
    if t == "" {
      k := 0;
    } else {
      k := DecimalOfValue(t);
      if Value(t) == 0 {
        k := k + 1;
        assert t == Zeros(k);
      }
    }
  }

  /** A text reads as a number if and only if it is its decimal form, after any zeros, and the number fits an int. */
  lemma AtoiIs(s: string, n: nat)
    ensures Atoi(s) == Some(n) <==> n <= 0x7fff_ffff_ffff_ffff && exists k: nat :: s == Zeros(k) + Decimal(n)
  {
    if Atoi(s) == Some(n) { var k := DecimalOfValue(s); }
    forall k: nat | s == Zeros(k) + Decimal(n) ensures s != "" && AllDigits(s) && Value(s) == n {
      ValueOfDecimal(k, n);
    }
  }

  /** Every version reads back as it is written, with or without the v. */
  lemma VersionRoundTrip(a: nat, b: nat, c: nat)
    requires a <= MAX_INT && b <= MAX_INT && c <= MAX_INT
    ensures var s := Decimal(a) + "." + Decimal(b) + "." + Decimal(c);
            Parse(s) == Some([a, b, c]) && Parse("v" + s) == Some([a, b, c])
  {
    var s := Decimal(a) + "." + Decimal(b) + "." + Decimal(c);
    NumberReads(a);
    NumberReads(b);
    NumberReads(c);
    assert ("v" + s)[1..] == s && TrimV(s) == s;
    assert Spells(s, [a, b, c], Decimal(a), Decimal(b), Decimal(c));
    SpelledParses(s, [a, b, c], Decimal(a), Decimal(b), Decimal(c));
    SpelledParses("v" + s, [a, b, c], Decimal(a), Decimal(b), Decimal(c));
  }

  lemma NumberReads(n: nat)
    requires n <= MAX_INT
    ensures Atoi(Decimal(n)) == Some(n) && Decimal(n) != "" && Decimal(n)[0] != 'v'
  {
    ValueOfDecimal(0, n);
    assert Zeros(0) + Decimal(n) == Decimal(n);
  }

  /** An optional v, then exactly three dot-separated numbers that fit an int: nothing else is a version. */
  lemma ParseExact(v: string, t: Triple)
    ensures Parse(v) == Some(t) <==>
            exists a, b, c :: Spells(v, t, a, b, c) || (v != "" && v[0] == 'v' && Spells(v[1..], t, a, b, c))
  {
    if Parse(v) == Some(t) {
      var p := SplitN(TrimV(v), 3);
      SplitJoined(TrimV(v));
      assert Spells(TrimV(v), t, p[0], p[1], p[2]);
    }
    forall a, b, c | Spells(v, t, a, b, c) ensures Parse(v) == Some(t) {
      assert v[0] == a[0] && IsDigit(a[0]);
      SpelledParses(v, t, a, b, c);
    }
    forall a, b, c | v != "" && v[0] == 'v' && Spells(v[1..], t, a, b, c) ensures Parse(v) == Some(t) {
      SpelledParses(v, t, a, b, c);
    }
  }

  // ---- the order ----

  /** n comes after c: the first component in which they differ is larger. */
  ghost predicate After(c: Triple, n: Triple) {
    exists k :: 0 <= k < 3 && Leads(c, n, k)
  }

  ghost predicate Leads(c: Triple, n: Triple, k: nat)
    requires k < 3
  {
    c[k] < n[k] && forall j :: 0 <= j < k ==> c[j] == n[j]
  }

  method IsNewer(current: string, candidate: string) returns (r: Result<bool, CompareError>)
    ensures r.Err? <==> Parse(current).None? || Parse(candidate).None?
    ensures r == Err(BadCurrent) <==> Parse(current).None?
    ensures r == Err(BadCandidate) <==> Parse(current).Some? && Parse(candidate).None?
    ensures r.Ok? ==> (r.value <==> After(Parse(current).value, Parse(candidate).value))
  {
    var c := ParseVersion(current);
    if c.None? {
      return Err(BadCurrent);
    }
    var n := ParseVersion(candidate);
    if n.None? {
      return Err(BadCandidate);
    }
    var i := 0;
    while i < 3
      invariant 0 <= i <= 3
      invariant forall k :: 0 <= k < i ==> c.value[k] == n.value[k]
    {
      if n.value[i] > c.value[i] {
        assert Leads(c.value, n.value, i);
        return Ok(true);
      }
      if n.value[i] < c.value[i] {
        return Ok(false);
      }
      i := i + 1;
    }
    return Ok(false);
  }

  /** candidate is a version, and a later one than current. */
  ghost predicate Newer(current: string, candidate: string) {
    Parse(current).Some? && Parse(candidate).Some? && After(Parse(current).value, Parse(candidate).value)
  }

  lemma AfterIrreflexive(a: Triple)
    ensures !After(a, a)
  {
  }

  lemma AfterTransitive(a: Triple, b: Triple, c: Triple)
    requires After(a, b) && After(b, c)
    ensures After(a, c)
  {
    var i :| 0 <= i < 3 && Leads(a, b, i);
    var k :| 0 <= k < 3 && Leads(b, c, k);
    assert Leads(a, c, Min(i, k));
  }

  lemma AfterTotal(a: Triple, b: Triple)
    ensures a == b || After(a, b) || After(b, a)
  {
    assert forall k :: 0 <= k < 3 && !Leads(a, b, k) && !Leads(b, a, k) ==>
        (forall j :: 0 <= j < k ==> a[j] == b[j]) ==> a[k] == b[k];
    if !After(a, b) && !After(b, a) {
      assert !Leads(a, b, 0) && !Leads(b, a, 0);
      assert !Leads(a, b, 1) && !Leads(b, a, 1);
      assert !Leads(a, b, 2) && !Leads(b, a, 2);
      assert a == b;
    }
  }
}
