/**
 The allow list's globs (internal/logs/allow.go): each is compiled to a regular
 expression, text to text. The model goes through that text: what is written
 for a glob is read back as a regular expression and matched, and the result is
 compared with what the documentation says of the glob.
 */
module Glob {
  import opened Prelude

  // ---- the documented meaning ----

  /** A glob in tokens: "**", "*", "?" and literal characters. */
  datatype Token = Deep | Star | One | Lit(c: char)

  function Tokens(g: string): seq<Token> {
    if g == "" then []
    else if |g| >= 2 && g[0] == '*' && g[1] == '*' then [Deep] + Tokens(g[2..])
    else if g[0] == '*' then [Star] + Tokens(g[1..])
    else if g[0] == '?' then [One] + Tokens(g[1..])
    else [Lit(g[0])] + Tokens(g[1..])
  }

  /** "**" spans directories; "*" and "?" stay within one path segment. */
  predicate Stands(t: Token, part: string) {
    match t
    case Deep => true
    case Star => '/' !in part
    case One => |part| == 1 && part[0] != '/'
    case Lit(c) => part == [c]
  }

  /** The path falls into parts, one for each token in turn. */
  ghost predicate Means(ts: seq<Token>, path: string) {
    if ts == [] then path == ""
    else exists k | 0 <= k <= |path| :: Stands(ts[0], path[..k]) && Means(ts[1..], path[k..])
  }

  // ---- regular expressions: the fragment that is generated ----

  datatype Atom = Dot | NotSlash | Char(c: char)

  datatype Piece = Piece(atom: Atom, star: bool)

  predicate Accepts(a: Atom, ch: char) {
    match a
    case Dot => ch != '\n'
    case NotSlash => ch != '/'
    case Char(c) => ch == c
  }

  /** An anchored concatenation of atoms, each once or starred. */
  predicate Matches(ps: seq<Piece>, s: string)
    decreases |ps| + |s|
  {
    if ps == [] then s == ""
    else if ps[0].star then
      Matches(ps[1..], s) || (s != "" && Accepts(ps[0].atom, s[0]) && Matches(ps, s[1..]))
    else s != "" && Accepts(ps[0].atom, s[0]) && Matches(ps[1..], s[1..])
  }

  const META := "\\.+*?()|[]{}^$"

  /** One atom at the front of a regexp text and how long its text is; None for anything else. */
  function ReadAtom(t: string): (r: Option<(Atom, nat)>)
    ensures r.Some? ==> 0 < r.value.1 <= |t|
  {
    if t == "" then None
    else if t[0] == '.' then Some((Dot, 1))
    else if |t| >= 4 && t[..4] == "[^/]" then Some((NotSlash, 4))
    else if t[0] == '\\' then if |t| >= 2 && t[1] in META then Some((Char(t[1]), 2)) else None
    else if t[0] in META then None
    else Some((Char(t[0]), 1))
  }

  function ReadPieces(t: string): Option<seq<Piece>>
    decreases |t|
  {
    if t == "" then Some([])
    else
      match ReadAtom(t)
      case None => None
      case Some((a, n)) =>
        var star := n < |t| && t[n] == '*';
        match ReadPieces(t[if star then n + 1 else n..])
        case None => None
        case Some(ps) => Some([Piece(a, star)] + ps)
  }

  /** regexp.MustCompile on an anchored text. */
  function ReadRegexp(t: string): Option<seq<Piece>> {
    if |t| >= 2 && t[0] == '^' && t[|t| - 1] == '$' then ReadPieces(t[1..|t| - 1]) else None
  }

  // ---- the compiler ----

  /** regexp.QuoteMeta of one character */
  function Quote(c: char): string {
    if c in META then ['\\', c] else [c]
  }

  /** string(c) of a byte is the character with that number. */
  function OfByte(b: Byte): char {
    b as char
  }

  const STAR: Byte := 42
  const QUESTION: Byte := 63

  /** The text written for the bytes of a glob. */
  function Body(g: seq<Byte>): string {
    if g == [] then ""
    else if |g| >= 2 && g[0] == STAR && g[1] == STAR then ".*" + Body(g[2..])
    else if g[0] == STAR then "[^/]*" + Body(g[1..])
    else if g[0] == QUESTION then "[^/]" + Body(g[1..])
    else Quote(OfByte(g[0])) + Body(g[1..])
  }

  function Compile(g: seq<Byte>): string {
    "^" + Body(g) + "$"
  }

  /** The compiled expressions, kept per glob. */
  class Cache {
    var texts: map<seq<Byte>, string>

    ghost predicate Valid()
      reads this
    {
      forall g :: g in texts ==> texts[g] == Compile(g)
    }

    constructor ()
      ensures Valid() && texts == map[]
    {
      texts := map[];
    }

    /** globRegexp */
    method GlobRegexp(g: seq<Byte>) returns (re: string)
      requires Valid()
      modifies this`texts
      ensures Valid() && re == Compile(g) && texts == old(texts)[g := re]
    {
      if g in texts {
        assert texts == texts[g := texts[g]];
        return texts[g];
      }
      re := WriteRegexp(g);
      texts := texts[g := re];
    }
  }

  /** The compiler's loop over the bytes of the glob. */
  method WriteRegexp(g: seq<Byte>) returns (re: string)
    ensures re == Compile(g)
  {
    var b := "^";
    var i := 0;
    assert g[0..] == g;
    while i < |g|
      invariant 0 <= i <= |g| && b + Body(g[i..]) == "^" + Body(g)
    {
      var part, n := "", 1;
      if g[i] == STAR && i + 1 < |g| && g[i + 1] == STAR {
        part, n := ".*", 2;
      } else if g[i] == STAR {
        part := "[^/]*";
      } else if g[i] == QUESTION {
        part := "[^/]";
      } else {
        part := Quote(OfByte(g[i]));
      }
      BodyStep(g, i, n, part);
      Reassociate(b, part, Body(g[i + n..]));
      b := b + part;
      i := i + n;
    }
    assert b + Body(g[i..]) == b;
    re := b + "$";
  }

  lemma Reassociate(a: string, b: string, c: string)
    ensures a + (b + c) == a + b + c
  {
  }

  lemma BodyStep(g: seq<Byte>, i: nat, n: nat, part: string)
    requires i < |g| && 1 <= n <= |g| - i
    requires if g[i] == STAR && i + 1 < |g| && g[i + 1] == STAR then n == 2 && part == ".*"
             else n == 1 && part == (if g[i] == STAR then "[^/]*" else if g[i] == QUESTION then "[^/]"
               else Quote(OfByte(g[i])))
    ensures Body(g[i..]) == part + Body(g[i + n..])
  {
    assert g[i..][n..] == g[i + n..];
  }

  // ---- the compiled text reads back as the tokens ----

  /** Each byte as the character with its number. */
  function Latin(g: seq<Byte>): string {
    seq(|g|, i requires 0 <= i < |g| => OfByte(g[i]))
  }

  function PieceOf(t: Token): Piece {
    match t
    case Deep => Piece(Dot, true)
    case Star => Piece(NotSlash, true)
    case One => Piece(NotSlash, false)
    case Lit(c) => Piece(Char(c), false)
  }

  function Pieces(ts: seq<Token>): seq<Piece> {
    seq(|ts|, i requires 0 <= i < |ts| => PieceOf(ts[i]))
  }

  lemma BodyNotStarred(g: seq<Byte>)
    ensures Body(g) == "" || Body(g)[0] != '*'
  {
  }

  lemma LatinTail(g: seq<Byte>, n: nat)
    requires n <= |g|
    ensures Latin(g)[n..] == Latin(g[n..])
  {
  }

  lemma PiecesCons(t: Token, ts: seq<Token>)
    ensures Pieces([t] + ts) == [PieceOf(t)] + Pieces(ts)
  {
  }

  lemma ReadPart(part: string, rest: string, p: Piece)
    requires rest == "" || rest[0] != '*'
    requires (part == ".*" && p == Piece(Dot, true)) || (part == "[^/]*" && p == Piece(NotSlash, true))
             || (part == "[^/]" && p == Piece(NotSlash, false))
             || (exists c: char :: part == Quote(c) && p == Piece(Char(c), false))
    requires ReadPieces(rest).Some?
    ensures ReadPieces(part + rest) == Some([p] + ReadPieces(rest).value)
  {
    var t := part + rest;
    var n := if p.star then |part| - 1 else |part|;
    assert t[|part|..] == rest;
    if p.atom.NotSlash? {
      assert t[..4] == "[^/]";
    } else if p.atom.Char? {
      var c := p.atom.c;
      assert part == Quote(c);
      if c !in META { assert t[0] == c; } else { assert t[0] == '\\' && t[1] == c; }
    }
    assert ReadAtom(t) == Some((p.atom, n));
  }

  lemma {:induction false} BodyReadsBack(g: seq<Byte>)
    ensures ReadPieces(Body(g)) == Some(Pieces(Tokens(Latin(g))))
    decreases |g|
  {
    if g == [] {
      assert Latin(g) == "" && Pieces(Tokens("")) == [];
    } else {
      var deep := |g| >= 2 && g[0] == STAR && g[1] == STAR;
      var n := if deep then 2 else 1;
      var rest := g[n..];
      BodyReadsBack(rest);
      LatinTail(g, n);
      BodyNotStarred(rest);
      var ts := Tokens(Latin(g));
      assert ts == [ts[0]] + Tokens(Latin(rest));
      PiecesCons(ts[0], Tokens(Latin(rest)));
      var part := if deep then ".*" else if g[0] == STAR then "[^/]*" else if g[0] == QUESTION then "[^/]"
        else Quote(OfByte(g[0]));
      assert Body(g) == part + Body(rest);
      ReadPart(part, Body(rest), PieceOf(ts[0]));
    }
  }

  /** Whatever the bytes, what is compiled is a regular expression with one piece per token. */
  lemma CompileReadsBack(g: seq<Byte>)
    ensures ReadRegexp(Compile(g)) == Some(Pieces(Tokens(Latin(g))))
  {
    BodyReadsBack(g);
    var t := Compile(g);
    assert t[1..|t| - 1] == Body(g);
  }

  // ---- the pieces accept what the tokens mean ----

  lemma MeansRun(ts: seq<Token>, s: string)
    requires ts != [] && (ts[0].Deep? || ts[0].Star?)
    ensures Means(ts, s) <==> Means(ts[1..], s) || (s != "" && Stands(ts[0], s[..1]) && Means(ts, s[1..]))
  {
    if Means(ts, s) {
      var k :| 0 <= k <= |s| && Stands(ts[0], s[..k]) && Means(ts[1..], s[k..]);
      assert s[0..] == s;
      if k > 0 {
        assert s[1..][..k - 1] == s[..k][1..] && s[1..][k - 1..] == s[k..];
      }
    }
    if Means(ts[1..], s) {
      assert s[..0] == "" && s[0..] == s;
    }
    if s != "" && Stands(ts[0], s[..1]) && Means(ts, s[1..]) {
      MeansLonger(ts, s);
    }
  }

  lemma MeansLonger(ts: seq<Token>, s: string)
    requires ts != [] && (ts[0].Deep? || ts[0].Star?)
    requires s != "" && Stands(ts[0], s[..1]) && Means(ts, s[1..])
    ensures Means(ts, s)
  {
    var k :| 0 <= k <= |s[1..]| && Stands(ts[0], s[1..][..k]) && Means(ts[1..], s[1..][k..]);
    assert s[..k + 1] == s[..1] + s[1..][..k] && s[k + 1..] == s[1..][k..];
  }

  lemma MeansOne(ts: seq<Token>, s: string)
    requires ts != [] && (ts[0].One? || ts[0].Lit?)
    ensures Means(ts, s) <==> s != "" && Stands(ts[0], s[..1]) && Means(ts[1..], s[1..])
  {
    if Means(ts, s) {
      var k :| 0 <= k <= |s| && Stands(ts[0], s[..k]) && Means(ts[1..], s[k..]);
      assert k == 1;
    }
  }

  /** What the pieces accept the tokens mean, and the other way round where no "**" meets a newline. */
  lemma {:induction false} PiecesMean(ts: seq<Token>, s: string)
    ensures Matches(Pieces(ts), s) ==> Means(ts, s)
    ensures '\n' !in s || Deep !in ts ==> (Matches(Pieces(ts), s) <==> Means(ts, s))
    decreases |ts| + |s|
  {
    if ts != [] {
      var ps := Pieces(ts);
      assert ps[1..] == Pieces(ts[1..]);
      if s != "" { assert s[..1] == [s[0]]; }
      if ps[0].star {
        MeansRun(ts, s);
        PiecesMean(ts[1..], s);
        if s != "" { PiecesMean(ts, s[1..]); }
      } else {
        MeansOne(ts, s);
        if s != "" { PiecesMean(ts[1..], s[1..]); }
      }
    }
  }

  /** The path matches the regular expression compiled for the glob. */
  predicate Admits(g: seq<Byte>, path: string) {
    var re := ReadRegexp(Compile(g));
    re.Some? && Matches(re.value, path)
  }

  lemma AdmitsMatches(g: seq<Byte>, path: string)
    ensures Admits(g, path) <==> Matches(Pieces(Tokens(Latin(g))), path)
  {
    CompileReadsBack(g);
  }

  /** Compilation preserves the meaning of the glob's bytes, each read as a character. */
  lemma CompilePreservesMeaning(g: seq<Byte>, path: string)
    ensures Admits(g, path) ==> Means(Tokens(Latin(g)), path)
    ensures '\n' !in path || Deep !in Tokens(Latin(g)) ==> (Admits(g, path) <==> Means(Tokens(Latin(g)), path))
  {
    AdmitsMatches(g, path);
    PiecesMean(Tokens(Latin(g)), path);
  }

  // ---- globs are UTF-8 text, but are compiled byte by byte ----

  predicate Ascii(text: string) {
    forall i :: 0 <= i < |text| ==> text[i] as int < 0x80
  }

  lemma LatinConcat(a: seq<Byte>, b: seq<Byte>)
    ensures Latin(a + b) == Latin(a) + Latin(b)
  {
  }

  lemma {:induction false} AsciiIsItself(text: string)
    requires Ascii(text)
    ensures Latin(Encode(text)) == text
  {
    if text != "" {
      AsciiIsItself(text[1..]);
      LatinConcat(Utf8(text[0]), Encode(text[1..]));
      assert Latin(Utf8(text[0])) == [text[0]];
    }
  }

  /** The characters every matching path must have: one per literal and question mark. */
  function MinLength(ts: seq<Token>): nat {
    if ts == [] then 0 else (if ts[0].One? || ts[0].Lit? then 1 else 0) + MinLength(ts[1..])
  }

  /** n segments, each after a newline. */
  function Segments(n: nat): string {
    if n == 0 then "" else "\n/" + Segments(n - 1)
  }

  /** A path the glob stands for: a shortest one when n is 0, otherwise with n segments for every "**". */
  function Sample(ts: seq<Token>, n: nat): string {
    if ts == [] then ""
    else
      (match ts[0]
       case Deep => Segments(n)
       case Star => ""
       case One => "a"
       case Lit(c) => [c]) + Sample(ts[1..], n)
  }

  lemma {:induction false} SampleMeans(ts: seq<Token>, n: nat)
    ensures Means(ts, Sample(ts, n))
  {
    if ts != [] {
      SampleMeans(ts[1..], n);
      var s, rest := Sample(ts, n), Sample(ts[1..], n);
      var k := |s| - |rest|;
      assert s[k..] == rest && Stands(ts[0], s[..k]);
    }
  }

  lemma {:induction false} ShortestSample(ts: seq<Token>)
    ensures |Sample(ts, 0)| == MinLength(ts)
    ensures (forall k :: 0 <= k < |ts| ==> ts[k] != Lit('\n')) ==> '\n' !in Sample(ts, 0)
  {
    if ts != [] {
      ShortestSample(ts[1..]);
    }
  }

  lemma {:induction false} MatchIsLong(ts: seq<Token>, s: string)
    requires Matches(Pieces(ts), s)
    ensures |s| >= MinLength(ts)
    decreases |ts| + |s|
  {
    if ts != [] {
      var ps := Pieces(ts);
      assert ps[1..] == Pieces(ts[1..]);
      if !ps[0].star {
        MatchIsLong(ts[1..], s[1..]);
      } else if Matches(ps[1..], s) {
        MatchIsLong(ts[1..], s);
      } else {
        MatchIsLong(ts, s[1..]);
      }
    }
  }

  lemma MinLengthCons(t: Token, ts: seq<Token>)
    ensures MinLength([t] + ts) == (if t.One? || t.Lit? then 1 else 0) + MinLength(ts)
  {
    assert ([t] + ts)[1..] == ts;
  }

  /** The number of characters other than '*'. */
  function NonStars(g: string): nat {
    if g == "" then 0 else (if g[0] == '*' then 0 else 1) + NonStars(g[1..])
  }

  lemma {:induction false} MinLengthCounts(g: string)
    ensures MinLength(Tokens(g)) == NonStars(g)
    decreases |g|
  {
    if g != "" {
      var n := if |g| >= 2 && g[0] == '*' && g[1] == '*' then 2 else 1;
      MinLengthCounts(g[n..]);
      MinLengthCons(Tokens(g)[0], Tokens(g[n..]));
      assert n == 2 ==> g[1..][1..] == g[2..];
    }
  }

  lemma {:induction false} NonStarsConcat(a: string, b: string)
    ensures NonStars(a + b) == NonStars(a) + NonStars(b)
  {
    if a == "" {
      assert a + b == b;
    } else {
      NonStarsConcat(a[1..], b);
      assert (a + b)[1..] == a[1..] + b;
    }
  }

  lemma {:induction false} NoStars(a: string)
    requires '*' !in a
    ensures NonStars(a) == |a|
  {
    if a != "" {
      NoStars(a[1..]);
    }
  }

  /** Bytes beyond ASCII become more literals than the text has characters. */
  lemma {:induction false} BytesDemandMore(text: string)
    ensures NonStars(Latin(Encode(text))) >= NonStars(text)
    ensures !Ascii(text) ==> NonStars(Latin(Encode(text))) > NonStars(text)
    decreases |text|
  {
    if text != "" {
      var c, rest := text[0], text[1..];
      BytesDemandMore(rest);
      var bytes := Latin(Utf8(c));
      LatinConcat(Utf8(c), Encode(rest));
      NonStarsConcat(bytes, Latin(Encode(rest)));
      if c as int >= 0x80 {
        NoStars(bytes);
      } else {
        assert bytes == [c];
      }
    }
  }

  lemma {:induction false} NoNewlineTokens(g: string)
    requires '\n' !in g
    ensures forall k :: 0 <= k < |Tokens(g)| ==> Tokens(g)[k] != Lit('\n')
    decreases |g|
  {
    if g != "" {
      NoNewlineTokens(g[if |g| >= 2 && g[0] == '*' && g[1] == '*' then 2 else 1..]);
    }
  }

  /**
   On newline-free paths the compiled glob accepts exactly what the documented
   glob means if and only if the glob is ASCII: beyond it each UTF-8 byte of a
   character is compiled as a character of its own.
   */
  lemma AgreesIffAscii(g: string)
    requires '\n' !in g
    ensures (forall path: string :: '\n' !in path ==> (Admits(Encode(g), path) <==> Means(Tokens(g), path))) <==>
              Ascii(g)
  {
    if Ascii(g) {
      AsciiIsItself(g);
      forall path: string | '\n' !in path ensures Admits(Encode(g), path) <==> Means(Tokens(g), path) {
        CompilePreservesMeaning(Encode(g), path);
      }
    } else {
      var path := Sample(Tokens(g), 0);
      NoNewlineTokens(g);
      ShortestSample(Tokens(g));
      BeyondAsciiDisagrees(g);
      assert '\n' !in path && !(Admits(Encode(g), path) <==> Means(Tokens(g), path));
    }
  }

  lemma BeyondAsciiDisagrees(g: string)
    requires !Ascii(g)
    ensures Means(Tokens(g), Sample(Tokens(g), 0)) && !Admits(Encode(g), Sample(Tokens(g), 0))
  {
    var path := Sample(Tokens(g), 0);
    SampleMeans(Tokens(g), 0);
    ShortestSample(Tokens(g));
    var bytes := Latin(Encode(g));
    MinLengthCounts(g);
    MinLengthCounts(bytes);
    BytesDemandMore(g);
    AdmitsMatches(Encode(g), path);
    if Matches(Pieces(Tokens(bytes)), path) { MatchIsLong(Tokens(bytes), path); }
  }

  // ---- newlines: ".*" does not span them ----

  /** How many newlines are followed by a slash. */
  function Breaks(s: string): nat {
    if s == "" then 0 else (if s[0] == '\n' && |s| > 1 && s[1] == '/' then 1 else 0) + Breaks(s[1..])
  }

  lemma {:induction false} BreaksConcat(a: string, b: string)
    ensures Breaks(a + b) >= Breaks(a) + Breaks(b)
  {
    if a == "" {
      assert a + b == b;
    } else {
      BreaksConcat(a[1..], b);
      assert (a + b)[1..] == a[1..] + b;
    }
  }

  lemma {:induction false} BreaksOfSegments(n: nat)
    ensures Breaks(Segments(n)) >= n
  {
    if n > 0 {
      BreaksOfSegments(n - 1);
      var s := Segments(n);
      assert s[1..] == "/" + Segments(n - 1) && s[1..][1..] == Segments(n - 1);
    }
  }

  lemma {:induction false} BreaksOfSample(ts: seq<Token>, n: nat)
    requires Deep in ts
    ensures Breaks(Sample(ts, n)) >= n
  {
    var rest := Sample(ts[1..], n);
    var k := |Sample(ts, n)| - |rest|;
    assert Sample(ts, n) == Sample(ts, n)[..k] + rest;
    BreaksConcat(Sample(ts, n)[..k], rest);
    if ts[0].Deep? {
      BreaksOfSegments(n);
      assert Sample(ts, n)[..k] == Segments(n);
    } else {
      BreaksOfSample(ts[1..], n);
    }
  }

  /** A newline before a slash is the last character of its piece, so there are no more of them than pieces. */
  lemma {:induction false} FewBreaks(ts: seq<Token>, s: string)
    requires Matches(Pieces(ts), s)
    ensures Breaks(s) <= |ts|
    decreases |ts| + |s|
  {
    if ts != [] {
      var ps := Pieces(ts);
      assert ps[1..] == Pieces(ts[1..]);
      if !ps[0].star {
        FewBreaks(ts[1..], s[1..]);
      } else if Matches(ps[1..], s) {
        FewBreaks(ts[1..], s);
      } else if |s| > 1 && s[0] == '\n' && s[1] == '/' {
        assert Matches(ps[1..], s[1..]);
        FewBreaks(ts[1..], s[1..]);
      } else {
        FewBreaks(ts, s[1..]);
      }
    }
  }

  /** With more segments than the glob has tokens, a path that it means is not accepted. */
  lemma DeepSample(ts: seq<Token>, n: nat)
    requires Deep in ts && n > |ts|
    ensures Means(ts, Sample(ts, n)) && !Matches(Pieces(ts), Sample(ts, n))
  {
    SampleMeans(ts, n);
    BreaksOfSample(ts, n);
    ManyBreaks(ts, Sample(ts, n));
  }

  lemma DeepDisagrees(g: string) returns (path: string)
    requires Ascii(g) && Deep in Tokens(g)
    ensures Means(Tokens(g), path) && !Admits(Encode(g), path)
  {
    path := Sample(Tokens(g), |Tokens(g)| + 1);
    AsciiIsItself(g);
    AdmitsMatches(Encode(g), path);
    DeepSample(Tokens(g), |Tokens(g)| + 1);
  }

  lemma ManyBreaks(ts: seq<Token>, s: string)
    requires Breaks(s) > |ts|
    ensures !Matches(Pieces(ts), s)
  {
    if Matches(Pieces(ts), s) { FewBreaks(ts, s); }
  }

  /**
   On all paths, newlines included, the compiled glob accepts exactly what the
   documented glob means if and only if the glob is ASCII and has no "**".
   */
  lemma AgreesEverywhereIff(g: string)
    ensures (forall path: string :: Admits(Encode(g), path) <==> Means(Tokens(g), path)) <==>
              Ascii(g) && Deep !in Tokens(g)
  {
    if !Ascii(g) {
      BeyondAsciiDisagrees(g);
    } else if Deep in Tokens(g) {
      var path := DeepDisagrees(g);
      assert !(Admits(Encode(g), path) <==> Means(Tokens(g), path));
    } else {
      AsciiIsItself(g);
      forall path: string ensures Admits(Encode(g), path) <==> Means(Tokens(g), path) {
        CompilePreservesMeaning(Encode(g), path);
      }
    }
  }

  /** The shortest failure. */
  lemma NewlineIsNotSpanned()
    ensures Means(Tokens("**"), "\n") && !Admits(Encode("**"), "\n")
  {
    assert "\n"[..1] == "\n" && "\n"[1..] == "";
    assert Tokens("**") == [Deep];
    assert Means([], "\n"[1..]) && [Deep][1..] == [];
    AsciiIsItself("**");
    CompileReadsBack(Encode("**"));
    assert Pieces([Deep]) == [Piece(Dot, true)];
    assert [Piece(Dot, true)][1..] == [];
  }

  // ---- what an allow list can let through ----

  function Slashes(s: string): nat {
    if s == "" then 0 else (if s[0] == '/' then 1 else 0) + Slashes(s[1..])
  }

  function SlashTokens(ts: seq<Token>): nat {
    if ts == [] then 0 else (if ts[0] == Lit('/') then 1 else 0) + SlashTokens(ts[1..])
  }

  lemma {:induction false} SlashesConcat(a: string, b: string)
    ensures Slashes(a + b) == Slashes(a) + Slashes(b)
  {
    if a == "" {
      assert a + b == b;
    } else {
      SlashesConcat(a[1..], b);
      assert (a + b)[1..] == a[1..] + b;
    }
  }

  lemma {:induction false} NoSlashes(a: string)
    requires '/' !in a
    ensures Slashes(a) == 0
  {
    if a != "" {
      NoSlashes(a[1..]);
    }
  }

  /** Without "**" a glob matches only paths of the same depth. */
  lemma {:induction false} SameDepth(ts: seq<Token>, path: string)
    requires Means(ts, path) && Deep !in ts
    ensures Slashes(path) == SlashTokens(ts)
    decreases |ts|
  {
    if ts != [] {
      var k :| 0 <= k <= |path| && Stands(ts[0], path[..k]) && Means(ts[1..], path[k..]);
      SameDepth(ts[1..], path[k..]);
      SlashesConcat(path[..k], path[k..]);
      assert path == path[..k] + path[k..];
      SlashesOfPart(ts[0], path[..k]);
    }
  }

  lemma SlashesOfPart(t: Token, part: string)
    requires Stands(t, part) && !t.Deep?
    ensures Slashes(part) == if t == Lit('/') then 1 else 0
  {
    if t == Lit('/') {
      assert part[1..] == "";
    } else {
      NoSlashes(part);
    }
  }

  lemma {:induction false} SlashesOfGlob(g: string)
    ensures SlashTokens(Tokens(g)) == Slashes(g)
    decreases |g|
  {
    if g != "" {
      var n := if |g| >= 2 && g[0] == '*' && g[1] == '*' then 2 else 1;
      SlashesOfGlob(g[n..]);
      assert Tokens(g) == [Tokens(g)[0]] + Tokens(g[n..]);
      assert Tokens(g)[1..] == Tokens(g[n..]);
      assert n == 2 ==> g[1..][1..] == g[2..];
    }
  }

  /** So an allowed path has as many slashes as the glob that allows it, unless the glob has a "**". */
  lemma AllowedDepth(g: string, path: string)
    requires Ascii(g) && Deep !in Tokens(g) && Admits(Encode(g), path)
    ensures Slashes(path) == Slashes(g)
  {
    AsciiIsItself(g);
    CompilePreservesMeaning(Encode(g), path);
    SameDepth(Tokens(g), path);
    SlashesOfGlob(g);
  }

  lemma {:induction false} LiteralPrefix(p: string, rest: string, path: string)
    requires '*' !in p && '?' !in p && Means(Tokens(p + rest), path)
    ensures |p| <= |path| && path[..|p|] == p && Means(Tokens(rest), path[|p|..])
    decreases |p|
  {
    if p == "" {
      assert p + rest == rest && path[0..] == path;
    } else {
      var g := p + rest;
      assert g[1..] == p[1..] + rest;
      var ts := Tokens(g);
      assert ts[0] == Lit(p[0]) && ts[1..] == Tokens(g[1..]);
      MeansOne(ts, path);
      LiteralPrefix(p[1..], rest, path[1..]);
      assert path[1..][|p| - 1..] == path[|p|..];
      assert path[..|p|] == path[..1] + path[1..][..|p| - 1];
    }
  }

  /** A literal text followed by "**" lets through only paths that begin with it, such as those below a directory. */
  lemma OnlyBelow(dir: string, path: string)
    requires Ascii(dir) && '*' !in dir && '?' !in dir
    requires Admits(Encode(dir + "**"), path)
    ensures dir <= path
  {
    AsciiIsItself(dir + "**");
    CompilePreservesMeaning(Encode(dir + "**"), path);
    LiteralPrefix(dir, "**", path);
  }

  /** Allowed, on a path already cleaned. */
  method Allowed(cache: Cache, path: string, allow: seq<seq<Byte>>) returns (ok: bool)
    requires cache.Valid()
    modifies cache`texts
    ensures cache.Valid()
    ensures ok <==> exists k :: 0 <= k < |allow| && Admits(allow[k], path)
  {
    for k := 0 to |allow|
      invariant cache.Valid()
      invariant forall j :: 0 <= j < k ==> !Admits(allow[j], path)
    {
      var text := cache.GlobRegexp(allow[k]);
      var re := ReadRegexp(text);
      if re.Some? && Matches(re.value, path) {
        return true;
      }
    }
    return false;
  }
}
