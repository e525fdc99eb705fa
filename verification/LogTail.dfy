/**
 The tailer's reading round (FileSource.read and emit in internal/logs/tail.go)
 as functions on values, and what any number of rounds sends.
 */
module LogTail {
  import opened Prelude
  import opened LogLines

  /** How much one file may read per round. */
  const READ_CHUNK: nat := 262144
  /** Milliseconds after which a round no longer keeps an unfinished line. */
  const PARTIAL_FLUSH: nat := 5000

  /**
   A followed file. `pos` is where the open descriptor stands, `offset` the
   start of the unfinished line, `partAt` the first of the rounds in a row that
   kept an unfinished line, whether or not it was the same line.
   */
  datatype Tailed = Tailed(inode: nat, offset: nat, pos: nat, partial: seq<Byte>, partAt: Option<int>, gone: bool)

  /** A log entry; `[lo, hi)` are the bytes of the inode it stands for. */
  datatype Entry = Entry(path: string, inode: nat, lo: nat, hi: nat, msg: seq<Byte>)

  /** A round in progress: `data` is read but not yet cut, `n` bytes came from the file. */
  datatype Reading = Reading(path: string, file: Tailed, data: seq<Byte>, n: nat)

  /** What a finished round leaves: the file, and whether it is closed and dropped. */
  datatype Finished = Finished(file: Tailed, sent: seq<Entry>, closed: bool)

  function BeginRead(path: string, tf: Tailed, content: seq<Byte>): Reading {
    var t :=
      if |content| < tf.offset + |tf.partial| then tf.(offset := 0, partial := [], pos := 0)
      else tf;
    var n: nat := if t.pos <= |content| then Min(READ_CHUNK, |content| - t.pos) else 0;
    var chunk := if t.pos <= |content| then content[t.pos..t.pos + n] else [];
    Reading(path, t.(partial := [], pos := t.pos + n), t.partial + chunk, n)
  }

  /** emit: the offset moves past the piece; a blank piece sends nothing. */
  function Emit(path: string, tf: Tailed, line: seq<Byte>, consumed: nat): (Tailed, seq<Entry>) {
    var hi := tf.offset + consumed;
    (tf.(offset := hi),
     match Message(line)
     case None => []
     case Some(m) => [Entry(path, tf.inode, tf.offset, hi, m)])
  }

  predicate HasLine(r: Reading) {
    IndexNewline(r.data) < |r.data|
  }

  /** One turn of the line loop. */
  function CutLine(r: Reading): (Reading, seq<Entry>)
    requires HasLine(r)
  {
    var i := IndexNewline(r.data);
    var (tf, sent) := Emit(r.path, r.file, r.data[..i], i + 1);
    (r.(file := tf, data := r.data[i + 1..]), sent)
  }

  /** What happens to the bytes after the last newline, and the closing test. */
  function EndRead(r: Reading, now: int): Finished {
    var d, t := r.data, r.file;
    var late := t.partAt.Some? && now - t.partAt.value > PARTIAL_FLUSH;
    var (tf, sent) :=
      if |d| >= MAX_LINE_BYTES then Emit(r.path, t, d, |d|)
      else if |d| > 0 && (t.gone || late) then
        var (tf, sent) := Emit(r.path, t, d, |d|);
        (tf.(partAt := None), sent)
      else if |d| > 0 then
        (t.(partial := d, partAt := if t.partAt.None? then Some(now) else t.partAt), [])
      else (t.(partAt := None), []);
    Finished(tf, sent, tf.gone && r.n < READ_CHUNK && |tf.partial| == 0)
  }

  /** The whole line loop. */
  function CutLines(r: Reading): (Reading, seq<Entry>)
    decreases |r.data|
  {
    if HasLine(r) then
      var (r', e) := CutLine(r);
      var (r'', es) := CutLines(r');
      (r'', e + es)
    else (r, [])
  }

  /** One call of read. */
  function ReadRound(path: string, tf: Tailed, content: seq<Byte>, now: int): Finished {
    var (r, es) := CutLines(BeginRead(path, tf, content));
    var f := EndRead(r, now);
    f.(sent := es + f.sent)
  }

  /**
   The descriptor stands right after the unfinished line, which is what the
   file holds there.
   */
  predicate InStep(tf: Tailed, content: seq<Byte>) {
    && tf.pos == tf.offset + |tf.partial| <= |content|
    && tf.partial == content[tf.offset..tf.pos]
  }

  /** The same between reading and cutting: `data` stands in for the partial line. */
  predicate Holds(r: Reading, content: seq<Byte>) {
    && r.file.partial == []
    && r.file.pos == r.file.offset + |r.data| <= |content|
    && r.data == content[r.file.offset..r.file.pos]
  }

  /** The piece of a raw stretch of bytes: without its newline, when it ends in one. */
  function LineOf(raw: seq<Byte>): seq<Byte> {
    if raw != [] && raw[|raw| - 1] == NEWLINE then raw[..|raw| - 1] else raw
  }

  /** An entry says what the file holds at the place it names. */
  predicate Truthful(e: Entry, content: seq<Byte>) {
    && e.lo < e.hi <= |content|
    && Message(LineOf(content[e.lo..e.hi])) == Some(e.msg)
  }

  // ---- one step keeps the descriptor and the bytes in hand in step ----

  lemma BeginHolds(path: string, tf: Tailed, content: seq<Byte>)
    requires InStep(tf, content)
    ensures var r := BeginRead(path, tf, content);
            && Holds(r, content) && r.file.inode == tf.inode && r.file.gone == tf.gone
            && r.file.offset == tf.offset && r.n == Min(READ_CHUNK, |content| - tf.pos)
            && r.file.pos == tf.pos + r.n && r.file.partAt == tf.partAt
  {
    var r := BeginRead(path, tf, content);
    assert r.data == content[tf.offset..tf.pos] + content[tf.pos..tf.pos + r.n];
    assert content[tf.offset..tf.pos + r.n] == content[tf.offset..tf.pos] + content[tf.pos..tf.pos + r.n];
  }

  /** A file that is shorter than what was read of it is read from its start, and the held bytes are dropped. */
  lemma TruncatedIsReadAgain(path: string, tf: Tailed, content: seq<Byte>)
    requires |content| < tf.offset + |tf.partial|
    ensures var r := BeginRead(path, tf, content);
            var n := Min(READ_CHUNK, |content|);
            && r == Reading(path, tf.(offset := 0, pos := n, partial := []), content[..n], n) && Holds(r, content)
  {
    var n := Min(READ_CHUNK, |content|);
    assert content[0..0 + n] == content[..n] && [] + content[..n] == content[..n];
  }

  /** An emitted piece is sent once, truthfully, or is blank. */
  lemma CutLineHolds(r: Reading, content: seq<Byte>)
    requires Holds(r, content) && HasLine(r)
    ensures var (r', sent) := CutLine(r);
            && Holds(r', content) && r'.path == r.path && r'.n == r.n
            && r'.file == r.file.(offset := r'.file.offset)
            && r.file.offset < r'.file.offset
            && |r'.data| < |r.data|
            && Accounts(sent, r.path, r.file, r'.file.offset, content)
  {
    var i := IndexNewline(r.data);
    var o := r.file.offset;
    Slices(content, o, r.file.pos, i + 1);
    RawLine(content, o, r.file.pos, i);
    EmitAccounts(r.path, r.file, r.data[..i], i + 1, content);
  }

  /** A complete line and its newline. */
  lemma RawLine(s: seq<Byte>, o: nat, p: nat, i: nat)
    requires o <= p <= |s| && i < p - o && s[o..p][i] == NEWLINE
    ensures LineOf(s[o..o + i + 1]) == s[o..p][..i]
  {
    var raw := s[o..o + i + 1];
    assert raw[i] == NEWLINE;
    assert raw[..i] == s[o..p][..i];
  }

  lemma EmitAccounts(path: string, tf: Tailed, line: seq<Byte>, consumed: nat, content: seq<Byte>)
    requires 0 < consumed && tf.offset + consumed <= |content|
    requires LineOf(content[tf.offset..tf.offset + consumed]) == line
    ensures var (f, sent) := Emit(path, tf, line, consumed);
            f == tf.(offset := tf.offset + consumed) && Accounts(sent, path, tf, f.offset, content)
  {
  }

  lemma Slices(s: seq<Byte>, o: nat, p: nat, n: nat)
    requires o <= p <= |s| && n <= p - o
    ensures s[o..p][..n] == s[o..o + n]
    ensures s[o..p][n..] == s[o + n..p]
  {
  }

  /** What a step that moved the offset from `tf.offset` to `hi` sent. */
  predicate Accounts(sent: seq<Entry>, path: string, tf: Tailed, hi: nat, content: seq<Byte>) {
    && tf.offset <= hi <= |content|
    && (sent == [] ==> tf.offset == hi || Message(LineOf(content[tf.offset..hi])) == None)
    && (sent != [] ==>
          && |sent| == 1 && Truthful(sent[0], content)
          && sent[0].path == path && sent[0].inode == tf.inode
          && sent[0].lo == tf.offset && sent[0].hi == hi)
  }

  lemma EndReadHolds(r: Reading, content: seq<Byte>, now: int)
    requires Holds(r, content) && !HasLine(r)
    ensures var f := EndRead(r, now);
            && InStep(f.file, content) && f.file.inode == r.file.inode && f.file.gone == r.file.gone
            && f.file.pos == r.file.pos
            && (f.file.offset == r.file.offset || f.file.offset == r.file.pos)
            && (f.closed <==> r.file.gone && r.n < READ_CHUNK && f.file.offset == r.file.pos)
            && Accounts(f.sent, r.path, r.file, f.file.offset, content)
  {
    var d := r.data;
    assert d[..IndexNewline(d)] == d;
    assert d == content[r.file.offset..r.file.pos];
    assert LineOf(d) == d;
    if |d| > 0 { EmitAccounts(r.path, r.file, d, |d|, content); }
  }

  // ---- a whole round, and any number of rounds ----

  /**
   The bytes from lo to hi were cut into pieces one after the other; each
   piece was sent once, in order and truthfully, or was blank.
   */
  ghost predicate Covered(sent: seq<Entry>, path: string, inode: nat, lo: nat, hi: nat, content: seq<Byte>)
    requires lo <= hi <= |content|
    decreases hi - lo
  {
    if lo == hi then sent == []
    else exists mid | lo < mid <= hi :: PieceThenCovered(sent, path, inode, lo, mid, hi, content)
  }

  ghost predicate PieceThenCovered(
    sent: seq<Entry>, path: string, inode: nat, lo: nat, mid: nat, hi: nat, content: seq<Byte>)
    requires lo < mid <= hi <= |content|
    decreases hi - lo, 0
  {
    match Message(LineOf(content[lo..mid]))
    case None => Covered(sent, path, inode, mid, hi, content)
    case Some(m) =>
      sent != [] && sent[0] == Entry(path, inode, lo, mid, m) &&
      Covered(sent[1..], path, inode, mid, hi, content)
  }

  /** The entries that are left for what follows the first piece. */
  function AfterPiece(sent: seq<Entry>, piece: seq<Byte>): seq<Entry> {
    if Message(piece).None? || sent == [] then sent else sent[1..]
  }

  lemma PieceLeaves(sent: seq<Entry>, path: string, inode: nat, lo: nat, k: nat, hi: nat, content: seq<Byte>)
    requires lo < k <= hi <= |content| && PieceThenCovered(sent, path, inode, lo, k, hi, content)
    ensures Covered(AfterPiece(sent, LineOf(content[lo..k])), path, inode, k, hi, content)
  {
  }

  lemma PieceJoins(a: seq<Entry>, b: seq<Entry>, path: string, inode: nat,
                   lo: nat, k: nat, mid: nat, hi: nat, content: seq<Byte>)
    requires lo < k <= mid <= hi <= |content| && PieceThenCovered(a, path, inode, lo, k, mid, content)
    requires Covered(AfterPiece(a, LineOf(content[lo..k])) + b, path, inode, k, hi, content)
    ensures PieceThenCovered(a + b, path, inode, lo, k, hi, content)
  {
    if Message(LineOf(content[lo..k])).Some? { assert (a + b)[1..] == a[1..] + b; }
  }

  lemma {:induction false} CoveredAppend(a: seq<Entry>, b: seq<Entry>, path: string, inode: nat,
                                         lo: nat, mid: nat, hi: nat, content: seq<Byte>)
    requires lo <= mid <= hi <= |content|
    requires Covered(a, path, inode, lo, mid, content) && Covered(b, path, inode, mid, hi, content)
    ensures Covered(a + b, path, inode, lo, hi, content)
    decreases mid - lo
  {
    if lo == mid {
      assert a + b == b;
    } else {
      var k :| lo < k <= mid && PieceThenCovered(a, path, inode, lo, k, mid, content);
      PieceLeaves(a, path, inode, lo, k, mid, content);
      CoveredAppend(AfterPiece(a, LineOf(content[lo..k])), b, path, inode, k, mid, hi, content);
      PieceJoins(a, b, path, inode, lo, k, mid, hi, content);
    }
  }

  lemma PieceGrows(sent: seq<Entry>, path: string, inode: nat, lo: nat, k: nat, hi: nat,
                   old_: seq<Byte>, new_: seq<Byte>)
    requires lo < k <= hi <= |old_| <= |new_| && old_[lo..k] == new_[lo..k]
    requires PieceThenCovered(sent, path, inode, lo, k, hi, old_)
    requires Covered(AfterPiece(sent, LineOf(old_[lo..k])), path, inode, k, hi, new_)
    ensures PieceThenCovered(sent, path, inode, lo, k, hi, new_)
  {
  }

  /** Appending to the file leaves what was cut before true. */
  lemma {:induction false} CoveredGrows(sent: seq<Entry>, path: string, inode: nat, lo: nat, hi: nat,
                                        old_: seq<Byte>, new_: seq<Byte>)
    requires lo <= hi <= |old_| && old_ <= new_
    requires Covered(sent, path, inode, lo, hi, old_)
    ensures Covered(sent, path, inode, lo, hi, new_)
    decreases hi - lo
  {
    if lo < hi {
      var k :| lo < k <= hi && PieceThenCovered(sent, path, inode, lo, k, hi, old_);
      assert old_[lo..k] == new_[lo..k];
      PieceLeaves(sent, path, inode, lo, k, hi, old_);
      CoveredGrows(AfterPiece(sent, LineOf(old_[lo..k])), path, inode, k, hi, old_, new_);
      PieceGrows(sent, path, inode, lo, k, hi, old_, new_);
    }
  }

  lemma AccountsCovers(sent: seq<Entry>, path: string, tf: Tailed, hi: nat, content: seq<Byte>)
    requires Accounts(sent, path, tf, hi, content)
    ensures Covered(sent, path, tf.inode, tf.offset, hi, content)
  {
    if tf.offset < hi {
      assert PieceThenCovered(sent, path, tf.inode, tf.offset, hi, hi, content);
    }
  }

  lemma {:induction false} CutLinesCovers(r: Reading, content: seq<Byte>)
    requires Holds(r, content)
    ensures var (r', es) := CutLines(r);
            && Holds(r', content) && !HasLine(r') && r'.path == r.path && r'.n == r.n
            && r.file.offset <= r'.file.offset
            && r'.file == r.file.(offset := r'.file.offset)
            && Covered(es, r.path, r.file.inode, r.file.offset, r'.file.offset, content)
    decreases |r.data|
  {
    if HasLine(r) {
      var (r1, e) := CutLine(r);
      CutLineHolds(r, content);
      AccountsCovers(e, r.path, r.file, r1.file.offset, content);
      CutLinesCovers(r1, content);
      var (r2, es) := CutLines(r1);
      CoveredAppend(e, es, r.path, r.file.inode, r.file.offset, r1.file.offset, r2.file.offset, content);
    } else {
      assert Covered([], r.path, r.file.inode, r.file.offset, r.file.offset, content);
    }
  }

  /** The line loop sends the messages of the complete lines and keeps the rest. */
  lemma {:induction false} CutLinesTexts(r: Reading)
    ensures var (r', es) := CutLines(r);
            Texts(es) == Messages(Lines(r.data)) && r'.data == Rest(r.data)
    decreases |r.data|
  {
    if HasLine(r) {
      var (r1, e) := CutLine(r);
      CutLinesTexts(r1);
      var line := r.data[..IndexNewline(r.data)];
      MessagesAppend([line], Lines(r1.data));
      TextsAppend(e, CutLines(r1).1);
      assert Texts(e) == Messages([line]) by { EmitTexts(r.path, r.file, line, |line| + 1); }
    }
  }

  lemma TextsAppend(a: seq<Entry>, b: seq<Entry>)
    ensures Texts(a + b) == Texts(a) + Texts(b)
  {
  }

  lemma EmitTexts(path: string, tf: Tailed, line: seq<Byte>, consumed: nat)
    ensures Texts(Emit(path, tf, line, consumed).1) == Messages([line])
  {
    assert [line][1..] == [];
  }

  function Texts(es: seq<Entry>): seq<seq<Byte>> {
    seq(|es|, i requires 0 <= i < |es| => es[i].msg)
  }

  /** A round takes the next chunk, loses none of its bytes and sends none twice. */
  lemma RoundCovers(path: string, tf: Tailed, content: seq<Byte>, now: int)
    requires InStep(tf, content)
    ensures var f := ReadRound(path, tf, content, now);
            var n := Min(READ_CHUNK, |content| - tf.pos);
            && InStep(f.file, content) && f.file.pos == tf.pos + n
            && f.file.inode == tf.inode && f.file.gone == tf.gone && tf.offset <= f.file.offset
            && Covered(f.sent, path, tf.inode, tf.offset, f.file.offset, content)
            && (f.closed <==> tf.gone && n < READ_CHUNK)
            && (tf.gone ==> f.file.partial == [])
  {
    BeginHolds(path, tf, content);
    var r := BeginRead(path, tf, content);
    CutLinesCovers(r, content);
    var (r', es) := CutLines(r);
    EndReadHolds(r', content, now);
    var f := EndRead(r', now);
    AccountsCovers(f.sent, path, r'.file, f.file.offset, content);
    CoveredAppend(es, f.sent, path, tf.inode, tf.offset, r'.file.offset, f.file.offset, content);
  }

  /** What one round finds: the bytes of the file, the time, and whether a scan marked it gone. */
  datatype Look = Look(content: seq<Byte>, now: int, gone: bool)

  /** Round after round. */
  function Follow(path: string, tf: Tailed, looks: seq<Look>): (Tailed, seq<Entry>) {
    if looks == [] then (tf, [])
    else
      var last := looks[|looks| - 1];
      var (t, es) := Follow(path, tf, looks[..|looks| - 1]);
      var f := ReadRound(path, t.(gone := t.gone || last.gone), last.content, last.now);
      (f.file, es + f.sent)
  }

  /** The file only grows. */
  ghost predicate Growing(base: seq<Byte>, looks: seq<Look>) {
    && (forall i :: 0 <= i < |looks| ==> base <= looks[i].content)
    && (forall i, j :: 0 <= i < j < |looks| ==> looks[i].content <= looks[j].content)
  }

  function Latest(base: seq<Byte>, looks: seq<Look>): seq<Byte> {
    if looks == [] then base else looks[|looks| - 1].content
  }

  lemma GrowingFront(base: seq<Byte>, looks: seq<Look>)
    requires looks != [] && Growing(base, looks)
    ensures Growing(base, looks[..|looks| - 1])
    ensures Latest(base, looks[..|looks| - 1]) <= looks[|looks| - 1].content
  {
  }

  lemma InStepGrows(t: Tailed, prev: seq<Byte>, content: seq<Byte>)
    requires InStep(t, prev) && prev <= content
    ensures InStep(t, content)
  {
    assert content[t.offset..t.pos] == prev[t.offset..t.pos];
  }

  lemma PrefixTransitive(a: seq<Byte>, b: seq<Byte>, c: seq<Byte>)
    requires a <= b <= c
    ensures a <= c
  {
  }

  /**
   However growth, time-outs, long lines and the end of the file fall into
   rounds, every byte up to the offset was sent once in a truthful piece or was
   in a blank one, and the rest up to the descriptor is the partial line.
   */
  lemma {:induction false} FollowCovers(path: string, tf: Tailed, base: seq<Byte>, looks: seq<Look>)
    requires InStep(tf, base) && Growing(base, looks)
    ensures var (t, es) := Follow(path, tf, looks);
            && InStep(t, Latest(base, looks)) && tf.offset <= t.offset && t.inode == tf.inode
            && Covered(es, path, tf.inode, tf.offset, t.offset, Latest(base, looks))
    decreases |looks|
  {
    if looks != [] {
      var k := |looks| - 1;
      var front := looks[..k];
      FollowCovers(path, tf, base, front);
      var (t, es) := Follow(path, tf, front);
      var prev, content := Latest(base, front), looks[k].content;
      GrowingFront(base, looks);
      CoveredGrows(es, path, tf.inode, tf.offset, t.offset, prev, content);
      var t' := t.(gone := t.gone || looks[k].gone);
      InStepGrows(t', prev, content);
      RoundCovers(path, t', content, looks[k].now);
      var f := ReadRound(path, t', content, looks[k].now);
      CoveredAppend(es, f.sent, path, tf.inode, tf.offset, t.offset, f.file.offset, content);
    }
  }

  // ---- draining a file that is gone ----

  /** Rounds of reading until the file is closed, and what they send. */
  function Drain(path: string, tf: Tailed, content: seq<Byte>, clock: nat -> int, k: nat): (nat, seq<Entry>)
    requires InStep(tf, content) && tf.gone
    decreases |content| - tf.pos
  {
    RoundCovers(path, tf, content, clock(k));
    var f := ReadRound(path, tf, content, clock(k));
    if f.closed then (1, f.sent)
    else
      var (n, es) := Drain(path, f.file, content, clock, k + 1);
      (1 + n, f.sent + es)
  }

  /** A gone file whose writer has stopped is closed after exactly this many rounds, wholly sent. */
  lemma {:induction false} DrainIsComplete(path: string, tf: Tailed, content: seq<Byte>, clock: nat -> int, k: nat)
    requires InStep(tf, content) && tf.gone
    ensures var (rounds, es) := Drain(path, tf, content, clock, k);
            && rounds == (|content| - tf.pos) / READ_CHUNK + 1
            && Covered(es, path, tf.inode, tf.offset, |content|, content)
    decreases |content| - tf.pos
  {
    RoundCovers(path, tf, content, clock(k));
    var f := ReadRound(path, tf, content, clock(k));
    if !f.closed {
      DrainIsComplete(path, f.file, content, clock, k + 1);
      var (_, es) := Drain(path, f.file, content, clock, k + 1);
      CoveredAppend(f.sent, es, path, tf.inode, tf.offset, f.file.offset, |content|, content);
    }
  }
}
