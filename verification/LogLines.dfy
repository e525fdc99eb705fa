/**
 One-shot line splitting: what the bytes of a log file mean as log lines, and
 the message the agent makes of one line (internal/logs/tail.go).
 */
module LogLines {
  import opened Prelude

  const NEWLINE: Byte := 10
  const CR: Byte := 13

  /** One log line is capped at 64 KiB; a longer one is cut and marked. */
  const MAX_LINE_BYTES: nat := 65536

  /** The UTF-8 bytes of "…[truncated]". */
  const TRUNCATED: seq<Byte> :=
    [0xE2, 0x80, 0xA6, 91, 116, 114, 117, 110, 99, 97, 116, 101, 100, 93]

  /** The index of the first newline, or the length when there is none. */
  function IndexNewline(data: seq<Byte>): (i: nat)
    ensures i <= |data|
    ensures i < |data| ==> data[i] == NEWLINE
    ensures NEWLINE !in data[..i]
  {
    if data == [] || data[0] == NEWLINE then 0
    else
      var j := IndexNewline(data[1..]);
      assert data[..1 + j] == [data[0]] + data[1..][..j];
      1 + j
  }

  /** The complete lines of data, without their newlines. */
  function Lines(data: seq<Byte>): seq<seq<Byte>> {
    var i := IndexNewline(data);
    if i == |data| then [] else [data[..i]] + Lines(data[i + 1..])
  }

  /** What follows the last newline. */
  function Rest(data: seq<Byte>): seq<Byte> {
    var i := IndexNewline(data);
    if i == |data| then data else Rest(data[i + 1..])
  }

  /** The lines written out, each followed by a newline. */
  function Join(lines: seq<seq<Byte>>): seq<Byte> {
    if lines == [] then [] else lines[0] + [NEWLINE] + Join(lines[1..])
  }

  ghost predicate NoNewlines(lines: seq<seq<Byte>>) {
    forall k :: 0 <= k < |lines| ==> NEWLINE !in lines[k]
  }

  lemma {:induction false} IndexUnique(a: seq<Byte>, b: seq<Byte>)
    requires NEWLINE !in a
    ensures IndexNewline(a + [NEWLINE] + b) == |a|
  {
    if a == [] {
      assert a + [NEWLINE] + b == [NEWLINE] + b;
    } else {
      IndexUnique(a[1..], b);
      assert (a + [NEWLINE] + b)[1..] == a[1..] + [NEWLINE] + b;
    }
  }

  lemma {:induction false} IndexWhole(a: seq<Byte>)
    requires NEWLINE !in a
    ensures IndexNewline(a) == |a|
  {
    if a != [] {
      IndexWhole(a[1..]);
    }
  }

  /** Splitting loses nothing: the lines and the rest spell the data again. */
  lemma {:induction false} SplitJoins(data: seq<Byte>)
    ensures Join(Lines(data)) + Rest(data) == data
  {
    var i := IndexNewline(data);
    if i < |data| {
      var line, more := data[..i], data[i + 1..];
      SplitJoins(more);
      JoinCons(line, Lines(more));
      Reassociate(line, Join(Lines(more)), Rest(more));
      CutAt(data, i);
    }
  }

  lemma {:induction false} SplitClean(data: seq<Byte>)
    ensures NoNewlines(Lines(data))
  {
    var i := IndexNewline(data);
    if i < |data| {
      SplitClean(data[i + 1..]);
    }
  }

  lemma Reassociate(line: seq<Byte>, a: seq<Byte>, b: seq<Byte>)
    ensures line + [NEWLINE] + a + b == line + [NEWLINE] + (a + b)
  {
  }

  lemma CutAt(data: seq<Byte>, i: nat)
    requires i < |data|
    ensures data == data[..i] + [data[i]] + data[i + 1..]
  {
  }

  lemma JoinCons(line: seq<Byte>, lines: seq<seq<Byte>>)
    ensures Join([line] + lines) == line + [NEWLINE] + Join(lines)
  {
    assert ([line] + lines)[1..] == lines;
  }

  /** A first line, then the rest. */
  lemma LinesCons(line: seq<Byte>, more: seq<Byte>)
    requires NEWLINE !in line
    ensures Lines(line + [NEWLINE] + more) == [line] + Lines(more)
    ensures Rest(line + [NEWLINE] + more) == Rest(more)
  {
    var data := line + [NEWLINE] + more;
    IndexUnique(line, more);
    assert data[..|line|] == line;
    assert data[|line| + 1..] == more;
  }

  /** ... and it is the only newline-free way to spell the data. */
  lemma {:induction false} SplitUnique(lines: seq<seq<Byte>>, rest: seq<Byte>)
    requires NoNewlines(lines) && NEWLINE !in rest
    ensures Lines(Join(lines) + rest) == lines
    ensures Rest(Join(lines) + rest) == rest
  {
    if lines == [] {
      assert Join(lines) + rest == rest;
      IndexWhole(rest);
    } else {
      SplitUnique(lines[1..], rest);
      Reassociate(lines[0], Join(lines[1..]), rest);
      LinesCons(lines[0], Join(lines[1..]) + rest);
    }
  }

  /** Splitting may stop anywhere and go on later from the unfinished rest. */
  lemma {:induction false} SplitAppend(a: seq<Byte>, b: seq<Byte>)
    ensures Lines(a + b) == Lines(a) + Lines(Rest(a) + b)
    ensures Rest(a + b) == Rest(Rest(a) + b)
    decreases |a|
  {
    var i := IndexNewline(a);
    if i < |a| {
      var line, more := a[..i], a[i + 1..];
      SplitAppend(more, b);
      CutAt(a, i);
      Reassociate(line, more, b);
      LinesCons(line, more);
      LinesCons(line, more + b);
      Regroup([line], Lines(more), Lines(Rest(more) + b));
    }
  }

  lemma Regroup(a: seq<seq<Byte>>, b: seq<seq<Byte>>, c: seq<seq<Byte>>)
    ensures a + (b + c) == a + b + c
  {
  }

  /** The byte length of the white-space rune s starts with, 0 when it does not. */
  function SpaceAt(s: seq<Byte>): (n: nat)
    ensures n <= |s|
  {
    if |s| >= 1 && (s[0] == 32 || 9 <= s[0] <= 13) then 1
    else if |s| >= 2 && s[0] == 0xC2 && (s[1] == 0x85 || s[1] == 0xA0) then 2
    else if |s| >= 3 && [s[0], s[1], s[2]] == [0xE1, 0x9A, 0x80] then 3
    else if |s| >= 3 && s[0] == 0xE2 && s[1] == 0x80 &&
            (0x80 <= s[2] <= 0x8A || s[2] == 0xA8 || s[2] == 0xA9 || s[2] == 0xAF) then 3
    else if |s| >= 3 && [s[0], s[1], s[2]] == [0xE2, 0x81, 0x9F] then 3
    else if |s| >= 3 && [s[0], s[1], s[2]] == [0xE3, 0x80, 0x80] then 3
    else 0
  }

  /** Only white space, as bytes.TrimSpace sees it. */
  predicate Blank(s: seq<Byte>)
    decreases |s|
  {
    s == [] || (SpaceAt(s) > 0 && Blank(s[SpaceAt(s)..]))
  }

  /** The line up to its last byte that is not a carriage return. */
  function TrimCR(s: seq<Byte>): (r: seq<Byte>)
    ensures |r| <= |s| && r == s[..|r|] && (r != [] ==> r[|r| - 1] != CR)
    ensures forall k :: |r| <= k < |s| ==> s[k] == CR
  {
    if s != [] && s[|s| - 1] == CR then TrimCR(s[..|s| - 1]) else s
  }

  /** What is sent for a line: nothing for a blank one, a cut text for a long one. */
  function Message(line: seq<Byte>): Option<seq<Byte>> {
    var s := TrimCR(line);
    if Blank(s) then None
    else if |s| > MAX_LINE_BYTES then Some(s[..MAX_LINE_BYTES] + TRUNCATED)
    else Some(s)
  }

  /** The messages of several lines, blank ones left out. */
  function Messages(lines: seq<seq<Byte>>): seq<seq<Byte>> {
    if lines == [] then []
    else
      (match Message(lines[0]) case None => [] case Some(m) => [m]) + Messages(lines[1..])
  }

  lemma {:induction false} MessagesAppend(a: seq<seq<Byte>>, b: seq<seq<Byte>>)
    ensures Messages(a + b) == Messages(a) + Messages(b)
    decreases |a|
  {
    if a == [] {
      assert a + b == b;
    } else {
      MessagesAppend(a[1..], b);
      MessagesCons(a[0], a[1..]);
      MessagesCons(a[0], a[1..] + b);
      assert a == [a[0]] + a[1..];
      Regroup([a[0]], a[1..], b);
      Regroup(Messages([a[0]]), Messages(a[1..]), Messages(b));
    }
  }

  /** Unicode's white space, as Go's unicode.IsSpace has it. */
  predicate White(c: char) {
    var n := c as int;
    9 <= n <= 13 || n == 32 || n == 0x85 || n == 0xA0 || n == 0x1680 || 0x2000 <= n <= 0x200A
    || n == 0x2028 || n == 0x2029 || n == 0x202F || n == 0x205F || n == 0x3000
  }

  predicate AllWhite(text: string) {
    forall i :: 0 <= i < |text| ==> White(text[i])
  }

  lemma SpaceEncodes(c: char, t: seq<Byte>)
    requires White(c)
    ensures SpaceAt(Utf8(c) + t) == |Utf8(c)| > 0
  {
  }

  /** The white-space character that s starts with. */
  function SpaceChar(s: seq<Byte>): (c: char)
    requires SpaceAt(s) > 0
    ensures White(c) && Utf8(c) == s[..SpaceAt(s)]
  {
    match SpaceAt(s)
    case 1 => s[0] as char
    case 2 => s[1] as char
    case _ =>
      if s[0] == 0xE1 then 0x1680 as char
      else if s[0] == 0xE3 then 0x3000 as char
      else if s[1] == 0x81 then 0x205F as char
      else (0x1F80 + s[2] as int) as char
  }

  lemma {:induction false} WhiteIsBlank(text: string)
    requires AllWhite(text)
    ensures Blank(Encode(text))
  {
    if text != "" {
      WhiteIsBlank(text[1..]);
      SpaceEncodes(text[0], Encode(text[1..]));
      assert Encode(text)[|Utf8(text[0])|..] == Encode(text[1..]);
    }
  }

  lemma {:induction false} BlankIsWhite(s: seq<Byte>) returns (text: string)
    requires Blank(s)
    ensures AllWhite(text) && Encode(text) == s
    decreases |s|
  {
    if s == [] {
      text := "";
    } else {
      var rest := BlankIsWhite(s[SpaceAt(s)..]);
      text := [SpaceChar(s)] + rest;
      assert text[1..] == rest;
    }
  }

  /** A line is blank if and only if it is the UTF-8 encoding of white-space characters and nothing else. */
  lemma BlankIff(s: seq<Byte>)
    ensures Blank(s) <==> exists text: string :: AllWhite(text) && Encode(text) == s
  {
    if Blank(s) { var text := BlankIsWhite(s); }
    forall text: string | AllWhite(text) && Encode(text) == s ensures Blank(s) { WhiteIsBlank(text); }
  }

  /** For ASCII: only spaces, tabs, newlines, vertical tabs, form feeds and carriage returns. */
  lemma {:induction false} BlankAscii(s: seq<Byte>)
    requires forall k :: 0 <= k < |s| ==> s[k] < 128
    ensures Blank(s) <==> forall k :: 0 <= k < |s| ==> s[k] == 32 || 9 <= s[k] <= 13
    decreases |s|
  {
    if s != [] {
      BlankAscii(s[1..]);
      assert s == [s[0]] + s[1..];
    }
  }

  /**
   What is sent for a line whose last byte other than a carriage return is at
   n - 1: nothing if that part is white space only, the part itself up to 64
   KiB, and otherwise its first 64 KiB with the mark.
   */
  lemma MessageIs(line: seq<Byte>, n: nat)
    requires n <= |line| && (n > 0 ==> line[n - 1] != CR) && forall k :: n <= k < |line| ==> line[k] == CR
    ensures Message(line) == None <==> exists text: string :: AllWhite(text) && Encode(text) == line[..n]
    ensures Message(line).Some? && n <= 65536 ==> Message(line).value == line[..n]
    ensures Message(line).Some? && n > 65536 ==> Message(line).value == line[..65536] + TRUNCATED
  {
    TrimmedAt(line, n);
    BlankIff(line[..n]);
  }

  lemma TrimmedAt(line: seq<Byte>, n: nat)
    requires n <= |line| && (n > 0 ==> line[n - 1] != CR) && forall k :: n <= k < |line| ==> line[k] == CR
    ensures TrimCR(line) == line[..n]
  {
    var r := TrimCR(line);
    assert r == [] || r[|r| - 1] == line[|r| - 1];
  }

  /** The messages of lines are those of each line that has one, in order. */
  lemma MessagesAt(a: seq<seq<Byte>>, line: seq<Byte>, b: seq<seq<Byte>>)
    ensures Messages(a + [line] + b) ==
            Messages(a) + (match Message(line) case None => [] case Some(m) => [m]) + Messages(b)
    ensures Messages([]) == []
  {
    MessagesAppend(a + [line], b);
    MessagesAppend(a, [line]);
    assert [line][1..] == [];
  }

  lemma MessagesCons(line: seq<Byte>, lines: seq<seq<Byte>>)
    ensures Messages([line] + lines) == Messages([line]) + Messages(lines)
  {
    assert ([line] + lines)[1..] == lines;
    assert [line][1..] == [];
  }

  /** Every stretch of 64 KiB holds a newline: no line reaches the cap. */
  ghost predicate ShortLines(data: seq<Byte>) {
    forall i :: 0 <= i <= |data| - MAX_LINE_BYTES ==> BreaksAfter(data, i)
  }

  /** A newline within the 64 KiB from index i on. */
  ghost predicate BreaksAfter(data: seq<Byte>, i: nat)
    requires i + MAX_LINE_BYTES <= |data|
  {
    exists k :: i <= k < i + MAX_LINE_BYTES && data[k] == NEWLINE
  }

  lemma {:induction false} RestIsSuffix(data: seq<Byte>)
    ensures |Rest(data)| <= |data|
    ensures Rest(data) == data[|data| - |Rest(data)|..]
    ensures NEWLINE !in Rest(data)
  {
    var i := IndexNewline(data);
    if i < |data| {
      RestIsSuffix(data[i + 1..]);
    } else {
      assert data[..i] == data;
    }
  }

  lemma ShortRest(data: seq<Byte>, n: nat)
    requires ShortLines(data) && n <= |data|
    ensures |Rest(data[..n])| < MAX_LINE_BYTES
  {
    var d := data[..n];
    RestIsSuffix(d);
    var i := |d| - |Rest(d)|;
    assert forall k :: i <= k < n ==> data[k] == Rest(d)[k - i];
    assert i + MAX_LINE_BYTES <= |data| ==> BreaksAfter(data, i);
  }
}
