/**
 FastCGI framing (internal/integrations/fastcgi.go; sections 3.3 and 3.4 of the
 FastCGI Specification 1.0).
 */
module FastCgi {
  import opened Prelude

  type Bytes = seq<Byte>

  const END_REQUEST: Byte := 3
  const STDOUT: Byte := 6

  // ---- records ----

  function Zeros(n: nat): Bytes {
    seq(n, _ => 0)
  }

  function Padding(n: nat): nat {
    (8 - n % 8) % 8
  }

  /** fcgiRecord: eight header bytes, the content, and padding to a multiple of eight. */
  function Record(typ: Byte, content: Bytes): Bytes {
    var n := |content|;
    [1, typ, 0, 1, n / 256 % 256, n % 256, Padding(n), 0] + content + Zeros(Padding(n))
  }

  /** A record as any peer may send it: every header byte and the padding are its own choice. */
  datatype Frame = Frame(version: Byte, typ: Byte, id1: Byte, id0: Byte, reserved: Byte, content: Bytes, padding: Bytes)

  predicate Fits(f: Frame) {
    |f.content| <= 65535 && |f.padding| <= 255
  }

  function Wire(f: Frame): Bytes
    requires Fits(f)
  {
    var n := |f.content|;
    [f.version, f.typ, f.id1, f.id0, n / 256, n % 256, |f.padding|, f.reserved] + f.content + f.padding
  }

  function LengthOf(hi: Byte, lo: Byte): nat {
    (hi as int) * 256 + (lo as int)
  }

  /** One turn of the reading loop: type, content and the rest of the stream; None when it ends too early. */
  function ReadRecord(s: Bytes): (r: Option<(Byte, Bytes, Bytes)>)
    ensures r.Some? ==> |r.value.2| < |s|
  {
    if |s| < 8 then None
    else
      var n: nat := LengthOf(s[4], s[5]);
      var all: nat := n + (s[6] as int);
      if |s| < 8 + all then None else Some((s[1], s[8..8 + n], s[8 + all..]))
  }

  lemma WireReads(f: Frame, rest: Bytes)
    requires Fits(f)
    ensures ReadRecord(Wire(f) + rest) == Some((f.typ, f.content, rest))
  {
    var s := Wire(f) + rest;
    var n := |f.content|;
    assert LengthOf(s[4], s[5]) == n && s[6] == |f.padding|;
    assert s[8..8 + n] == f.content;
    assert s[8 + n + |f.padding|..] == rest;
  }

  /** The client's own records are such frames, as long as the length fits two bytes. */
  lemma RecordIsWire(typ: Byte, content: Bytes)
    requires |content| <= 65535
    ensures Padding(|content|) <= 7
    ensures Record(typ, content) == Wire(Frame(1, typ, 0, 1, 0, content, Zeros(Padding(|content|))))
  {
  }

  /** Every record is a whole number of eight-byte units. */
  lemma RecordAligned(typ: Byte, content: Bytes)
    ensures |Record(typ, content)| % 8 == 0
  {
    PaddingAligns(|content|);
    assert |Record(typ, content)| == 8 + |content| + Padding(|content|);
  }

  lemma PaddingAligns(n: nat)
    ensures (8 + n + Padding(n)) % 8 == 0
  {
  }

  /** A record reads back as it was written if and only if its content is at most 65535 bytes. */
  lemma RecordReadsIffShort(typ: Byte, content: Bytes, rest: Bytes)
    ensures ReadRecord(Record(typ, content) + rest).Some?
    ensures ReadRecord(Record(typ, content) + rest) == Some((typ, content, rest)) <==> |content| <= 65535
  {
    var n := |content|;
    if n <= 65535 {
      RecordIsWire(typ, content);
      WireReads(Frame(1, typ, 0, 1, 0, content, Zeros(Padding(n))), rest);
    } else {
      var s := Record(typ, content) + rest;
      var m := LengthOf(s[4], s[5]);
      assert s[4] == n / 256 % 256 && s[5] == n % 256 && s[6] == Padding(n);
      assert m < 65536 <= n;
      assert |s[8..8 + m]| == m;
    }
  }

  /** A content one byte longer than the limit reads back as an empty one. */
  lemma LongRecordIsLost(typ: Byte)
    ensures var read := ReadRecord(Record(typ, Zeros(65536)));
            read.Some? && read.value.0 == typ && read.value.1 == []
  {
    var s := Record(typ, Zeros(65536));
    assert s[4] == 0 && s[5] == 0 && s[6] == 0;
    assert s[8..8] == [];
  }

  // ---- the reply ----

  datatype ReplyError = EndOfStream | StatusPageOff

  /** "\r\n\r\n" */
  const BLANK_LINE: Bytes := [13, 10, 13, 10]
  /** "Status: 404" and "Status: 403" */
  const NOT_FOUND: Bytes := [83, 116, 97, 116, 117, 115, 58, 32, 52, 48, 52]
  const FORBIDDEN: Bytes := [83, 116, 97, 116, 117, 115, 58, 32, 52, 48, 51]

  predicate OccursAt(s: Bytes, what: Bytes, i: nat) {
    i + |what| <= |s| && s[i..i + |what|] == what
  }

  /** bytes.Index: the first place of `what` from i on. */
  function IndexFrom(s: Bytes, what: Bytes, i: nat): (r: Option<nat>)
    decreases |s| - i
    ensures r.Some? ==> i <= r.value && OccursAt(s, what, r.value)
    ensures r.Some? ==> forall j :: i <= j < r.value ==> !OccursAt(s, what, j)
    ensures r.None? ==> forall j :: i <= j ==> !OccursAt(s, what, j)
  {
    if i + |what| > |s| then None
    else if OccursAt(s, what, i) then Some(i)
    else IndexFrom(s, what, i + 1)
  }

  /** The body without its CGI headers. */
  function Finish(out: Bytes): Result<Bytes, ReplyError> {
    match IndexFrom(out, BLANK_LINE, 0)
    case None => Ok(out)
    case Some(i) =>
      if IndexFrom(out[..i], NOT_FOUND, 0).Some? || IndexFrom(out[..i], FORBIDDEN, 0).Some? then Err(StatusPageOff)
      else Ok(out[i + 4..])
  }

  ghost predicate Contains(s: Bytes, what: Bytes) {
    exists i: nat :: OccursAt(s, what, i)
  }

  /**
   What comes after the first blank line, unless the headers before it name
   status 404 or 403; everything when there is no blank line.
   */
  lemma FinishIs(head: Bytes, body: Bytes)
    ensures !Contains(head, BLANK_LINE) ==> Finish(head) == Ok(head)
    ensures (forall i :: 0 <= i < |head| ==> !OccursAt(head + BLANK_LINE + body, BLANK_LINE, i)) ==>
              Finish(head + BLANK_LINE + body) ==
              if Contains(head, NOT_FOUND) || Contains(head, FORBIDDEN) then Err(StatusPageOff) else Ok(body)
  {
    var out := head + BLANK_LINE + body;
    assert OccursAt(out, BLANK_LINE, |head|);
    assert out[..|head|] == head && out[|head| + 4..] == body;
    assert Contains(head, NOT_FOUND) <==> IndexFrom(head, NOT_FOUND, 0).Some?;
    assert Contains(head, FORBIDDEN) <==> IndexFrom(head, FORBIDDEN, 0).Some?;
  }

  /** The reading loop of fcgiGet with `out` read so far. */
  function Reply(s: Bytes, out: Bytes): Result<Bytes, ReplyError>
    decreases |s|
  {
    match ReadRecord(s)
    case None => Err(EndOfStream)
    case Some((typ, content, rest)) =>
      if typ == STDOUT then Reply(rest, out + content)
      else if typ == END_REQUEST then Finish(out)
      else Reply(rest, out)
  }

  method ReadReply(stream: Bytes) returns (r: Result<Bytes, ReplyError>)
    ensures r == Reply(stream, [])
  {
    var s, out := stream, [];
    while true
      invariant Reply(stream, []) == Reply(s, out)
      decreases |s|
    {
      var next := ReadRecord(s);
      if next.None? {
        return Err(EndOfStream);
      }
      var (typ, content, rest) := next.value;
      if typ == STDOUT {
        out := out + content;
      } else if typ == END_REQUEST {
        return Finish(out);
      }
      s := rest;
    }
  }

  function WireAll(fs: seq<Frame>): Bytes
    requires forall k :: 0 <= k < |fs| ==> Fits(fs[k])
  {
    if fs == [] then [] else Wire(fs[0]) + WireAll(fs[1..])
  }

  /** What the frames before the end of the request say on standard output. */
  function Stdout(fs: seq<Frame>): Bytes {
    if fs == [] || fs[0].typ == END_REQUEST then []
    else (if fs[0].typ == STDOUT then fs[0].content else []) + Stdout(fs[1..])
  }

  predicate Ends(fs: seq<Frame>) {
    exists k :: 0 <= k < |fs| && fs[k].typ == END_REQUEST
  }

  lemma {:induction false} ReplyReads(fs: seq<Frame>, out: Bytes)
    requires forall k :: 0 <= k < |fs| ==> Fits(fs[k])
    ensures Reply(WireAll(fs), out) == if Ends(fs) then Finish(out + Stdout(fs)) else Err(EndOfStream)
    decreases |fs|
  {
    if fs != [] {
      var f := fs[0];
      ReplyOnFrame(f, WireAll(fs[1..]), out);
      if f.typ == END_REQUEST {
        assert Ends(fs) && out + [] == out;
      } else {
        var more := if f.typ == STDOUT then out + f.content else out;
        ReplyReads(fs[1..], more);
        StdoutStep(fs, out);
        EndsTail(fs);
      }
    }
  }

  lemma StdoutStep(fs: seq<Frame>, out: Bytes)
    requires fs != [] && fs[0].typ != END_REQUEST
    ensures var more := if fs[0].typ == STDOUT then out + fs[0].content else out;
            more + Stdout(fs[1..]) == out + Stdout(fs)
  {
    var tail := Stdout(fs[1..]);
    if fs[0].typ == STDOUT {
      Reassociate(out, fs[0].content, tail);
    } else {
      Reassociate(out, [], tail);
    }
  }

  lemma Reassociate(a: Bytes, b: Bytes, c: Bytes)
    ensures a + b + c == a + (b + c) && [] + c == c
  {
  }

  /** One record of the reply. */
  lemma ReplyOnFrame(f: Frame, rest: Bytes, out: Bytes)
    requires Fits(f)
    ensures Reply(Wire(f) + rest, out) ==
            if f.typ == END_REQUEST then Finish(out)
            else Reply(rest, if f.typ == STDOUT then out + f.content else out)
  {
    WireReads(f, rest);
  }

  lemma EndsTail(fs: seq<Frame>)
    requires fs != [] && fs[0].typ != END_REQUEST
    ensures Ends(fs) <==> Ends(fs[1..])
  {
    if Ends(fs) {
      var k :| 0 <= k < |fs| && fs[k].typ == END_REQUEST;
      assert fs[1..][k - 1] == fs[k];
    }
    if Ends(fs[1..]) {
      var k :| 0 <= k < |fs[1..]| && fs[1..][k].typ == END_REQUEST;
      assert fs[k + 1] == fs[1..][k];
    }
  }

  /**
   The reply depends only on what is said on standard output before the end,
   not on how it is split into records, padded, or mixed with other records.
   */
  lemma SplittingIsInvisible(fs: seq<Frame>, gs: seq<Frame>)
    requires (forall k :: 0 <= k < |fs| ==> Fits(fs[k])) && forall k :: 0 <= k < |gs| ==> Fits(gs[k])
    requires Ends(fs) && Ends(gs) && Stdout(fs) == Stdout(gs)
    ensures Reply(WireAll(fs), []) == Reply(WireAll(gs), []) == Finish(Stdout(fs))
  {
    ReplyReads(fs, []);
    ReplyReads(gs, []);
    assert [] + Stdout(fs) == Stdout(fs);
  }

  // ---- name-value pairs ----

  /** A length in one byte, or in four with the top bit set. */
  function EncodeLength(n: nat): Bytes {
    if n < 128 then [n]
    else [128 + n / 16777216 % 128, n / 65536 % 256, n / 256 % 256, n % 256]
  }

  /** fcgiPair */
  function EncodePair(k: Bytes, v: Bytes): Bytes {
    EncodeLength(|k|) + EncodeLength(|v|) + k + v
  }

  function EncodePairs(ps: seq<(Bytes, Bytes)>): Bytes {
    if ps == [] then [] else EncodePair(ps[0].0, ps[0].1) + EncodePairs(ps[1..])
  }

  /** How a server reads a length (section 3.4). */
  function DecodeLength(s: Bytes): (r: Option<(nat, Bytes)>)
    ensures r.Some? ==> |r.value.1| < |s|
  {
    if s == [] then None
    else if s[0] < 128 then Some((s[0], s[1..]))
    else if |s| < 4 then None
    else Some(((LengthOf(s[0], s[1]) - 32768) * 65536 + LengthOf(s[2], s[3]), s[4..]))
  }

  function DecodePairs(s: Bytes): Option<seq<(Bytes, Bytes)>>
    decreases |s|
  {
    if s == [] then Some([])
    else
      match DecodeLength(s)
      case None => None
      case Some((kn, s1)) =>
        match DecodeLength(s1)
        case None => None
        case Some((vn, s2)) =>
          if |s2| < kn + vn then None
          else
            match DecodePairs(s2[kn + vn..])
            case None => None
            case Some(ps) => Some([(s2[..kn], s2[kn..kn + vn])] + ps)
  }

  /** A length reads back if and only if it is below 2^31. */
  lemma LengthReadsIffShort(n: nat, rest: Bytes)
    ensures DecodeLength(EncodeLength(n) + rest) == Some((n, rest)) <==> n < 0x8000_0000
  {
    var s := EncodeLength(n) + rest;
    if n < 128 {
      assert s[1..] == rest;
    } else {
      assert s[4..] == rest;
      var a, b := n / 16777216 % 128, n / 65536 % 256;
      var c, d := n / 256 % 256, n % 256;
      assert s[0] == 128 + a && s[1] == b && s[2] == c && s[3] == d;
      LongLength(a, b, c, d);
      Base256(n);
      BelowIff(n);
    }
  }

  /** A length of 2^31 reads back as 0. */
  lemma LongLengthIsLost()
    ensures DecodeLength(EncodeLength(0x8000_0000)) == Some((0, []))
  {
    var s := EncodeLength(0x8000_0000);
    assert s == [128, 0, 0, 0];
    assert s[4..] == [];
  }

  lemma BelowIff(n: nat)
    ensures n % 0x8000_0000 == n <==> n < 0x8000_0000
  {
  }

  lemma LongLength(a: nat, b: Byte, c: Byte, d: Byte)
    requires a < 128
    ensures (LengthOf(128 + a, b) - 32768) * 65536 + LengthOf(c, d) == a * 16777216 + b * 65536 + c * 256 + d
  {
  }

  lemma Base256(n: nat)
    ensures (n / 16777216 % 128) * 16777216 + (n / 65536 % 256) * 65536 + (n / 256 % 256) * 256 + n % 256 ==
              n % 0x8000_0000
  {
    var q1 := n / 256;
    var q2 := q1 / 256;
    var q3 := q2 / 256;
    assert n / 65536 == q2;
    assert n / 16777216 == q3;
    Remainder(q3 / 128, q3 % 128 * 16777216 + q2 % 256 * 65536 + q1 % 256 * 256 + n % 256);
  }

  lemma Remainder(q: nat, r: nat)
    requires r < 0x8000_0000
    ensures (q * 0x8000_0000 + r) % 0x8000_0000 == r
  {
  }

  lemma PairShape(n: Bytes, m: Bytes, k: Bytes, v: Bytes, rest: Bytes)
    ensures n + m + k + v + rest == n + (m + k + v + rest)
    ensures m + k + v + rest == m + (k + v + rest)
  {
  }

  lemma PairReads(k: Bytes, v: Bytes, rest: Bytes)
    requires |k| < 0x8000_0000 && |v| < 0x8000_0000
    ensures var s := EncodePair(k, v) + rest;
            && s != [] && DecodeLength(s) == Some((|k|, EncodeLength(|v|) + k + v + rest))
            && DecodeLength(EncodeLength(|v|) + k + v + rest) == Some((|v|, k + v + rest))
  {
    LengthReadsIffShort(|k|, EncodeLength(|v|) + k + v + rest);
    LengthReadsIffShort(|v|, k + v + rest);
    PairShape(EncodeLength(|k|), EncodeLength(|v|), k, v, rest);
  }

  /** A list of pairs decodes to exactly the pairs that were encoded. */
  lemma {:induction false} PairsRoundTrip(ps: seq<(Bytes, Bytes)>)
    requires forall i :: 0 <= i < |ps| ==> |ps[i].0| < 0x8000_0000 && |ps[i].1| < 0x8000_0000
    ensures DecodePairs(EncodePairs(ps)) == Some(ps)
  {
    if ps != [] {
      var (k, v) := ps[0];
      var rest := EncodePairs(ps[1..]);
      PairsRoundTrip(ps[1..]);
      PairReads(k, v, rest);
      var s2 := k + v + rest;
      assert s2[..|k|] == k && s2[|k|..|k| + |v|] == v && s2[|k| + |v|..] == rest;
      assert ps == [(k, v)] + ps[1..];
    }
  }

  /** The request being built. */
  class Buffer {
    var data: Bytes

    constructor ()
      ensures data == []
    {
      data := [];
    }

    method WriteRecord(typ: Byte, content: Bytes)
      modifies this
      ensures data == old(data) + Record(typ, content)
    {
      var pad := (8 - |content| % 8) % 8;
      var h := [1, typ, 0, 1, |content| / 256 % 256, |content| % 256, pad, 0];
      data := data + h;
      data := data + content;
      data := data + Zeros(pad);
      assert data == old(data) + (h + content + Zeros(pad));
    }

    method WritePair(k: Bytes, v: Bytes)
      modifies this
      ensures data == old(data) + EncodePair(k, v)
    {
      var lengths := [|k|, |v|];
      for i := 0 to 2
        invariant data == old(data) + (if i > 0 then EncodeLength(|k|) else [])
                          + (if i > 1 then EncodeLength(|v|) else [])
      {
        var n := lengths[i];
        if n < 128 {
          data := data + [n];
        } else {
          data := data + [128 + n / 16777216 % 128, n / 65536 % 256, n / 256 % 256, n % 256];
        }
      }
      data := data + k;
      data := data + v;
      assert data == old(data) + EncodePair(k, v);
    }
  }
}
