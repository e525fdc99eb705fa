/**
 When reading a growing file round by round is the same as splitting its
 content in one go (FileSource.read in internal/logs/tail.go), stated over what
 the rounds find: contents, times and marks.
 */
module LogOneShot {
  import opened Prelude
  import opened LogLines
  import opened LogTail

  // ---- one round ----

  /** An unfinished line that the round does not keep: too long, of a file that is gone, or overdue. */
  predicate Flushes(t: Tailed, rest: seq<Byte>, now: int) {
    rest != [] && (|rest| >= MAX_LINE_BYTES || t.gone || (t.partAt.Some? && now - t.partAt.value > PARTIAL_FLUSH))
  }

  /** The timer after a round that kept `rest`. */
  function KeptSince(was: Option<int>, rest: seq<Byte>, now: int): Option<int> {
    if rest == [] then None else if was.None? then Some(now) else was
  }

  lemma EndKeepsOrFlushes(r: Reading, now: int)
    requires r.file.partial == []
    ensures var f := EndRead(r, now);
            && f.file.pos == r.file.pos && f.file.gone == r.file.gone
            && (Flushes(r.file, r.data, now) ==>
                  && Texts(f.sent) == Messages([r.data]) && f.file.partial == []
                  && f.file.partAt == if |r.data| >= MAX_LINE_BYTES then r.file.partAt else None)
            && (!Flushes(r.file, r.data, now) ==>
                  && f.sent == [] && f.file.partial == r.data
                  && f.file.partAt == KeptSince(r.file.partAt, r.data, now))
  {
    EmitTexts(r.path, r.file, r.data, |r.data|);
  }

  lemma {:induction false} CutLinesFrame(r: Reading)
    ensures var r' := CutLines(r).0;
            r'.file == r.file.(offset := r'.file.offset)
    decreases |r.data|
  {
    if HasLine(r) {
      CutLinesFrame(CutLine(r).0);
    }
  }

  /** What a round on `data` in hand sends, and what it keeps. */
  lemma CutKeepsOrFlushes(r: Reading, now: int)
    requires r.file.partial == []
    ensures var (r', es) := CutLines(r);
            var f := EndRead(r', now);
            var rest := Rest(r.data);
            && f.file.pos == r.file.pos && f.file.gone == r.file.gone
            && (Flushes(r.file, rest, now) ==>
                  && Texts(es + f.sent) == Messages(Lines(r.data)) + Messages([rest]) && f.file.partial == []
                  && f.file.partAt == if |rest| >= MAX_LINE_BYTES then r.file.partAt else None)
            && (!Flushes(r.file, rest, now) ==>
                  && Texts(es + f.sent) == Messages(Lines(r.data)) && f.file.partial == rest
                  && f.file.partAt == KeptSince(r.file.partAt, rest, now))
  {
    CutLinesTexts(r);
    CutLinesFrame(r);
    var (r', es) := CutLines(r);
    var f := EndRead(r', now);
    EndKeepsOrFlushes(r', now);
    TextsAppend(es, f.sent);
    assert es + [] == es;
  }

  /** The bytes a round takes from the file. */
  function Chunk(t: Tailed, content: seq<Byte>): seq<Byte>
    requires t.pos <= |content|
  {
    content[t.pos..t.pos + Min(READ_CHUNK, |content| - t.pos)]
  }

  lemma RoundKeepsOrFlushes(path: string, t: Tailed, content: seq<Byte>, now: int)
    requires InStep(t, content)
    ensures var f := ReadRound(path, t, content, now);
            var data := t.partial + Chunk(t, content);
            && f.file.pos == t.pos + |Chunk(t, content)| && f.file.gone == t.gone
            && (Flushes(t, Rest(data), now) ==>
                  && Texts(f.sent) == Messages(Lines(data)) + Messages([Rest(data)]) && f.file.partial == []
                  && f.file.partAt == if |Rest(data)| >= MAX_LINE_BYTES then t.partAt else None)
            && (!Flushes(t, Rest(data), now) ==>
                  && Texts(f.sent) == Messages(Lines(data)) && f.file.partial == Rest(data)
                  && f.file.partAt == KeptSince(t.partAt, Rest(data), now))
  {
    var r := BeginRead(path, t, content);
    var chunk := Chunk(t, content);
    assert r == Reading(path, t.(partial := [], pos := t.pos + |chunk|), t.partial + chunk, |chunk|);
    CutKeepsOrFlushes(r, now);
  }

  // ---- rounds: what they find decides what they keep ----

  /** Where the descriptor stands after n rounds from `o`. */
  function Reached(o: nat, looks: seq<Look>, n: nat): (p: nat)
    requires n <= |looks|
    ensures o <= p
  {
    if n == 0 then o
    else
      var p := Reached(o, looks, n - 1);
      var size := |looks[n - 1].content|;
      if p <= size then p + Min(READ_CHUNK, size - p) else p
  }

  /** The bytes read in n rounds, of a file that holds `whole` in the end. */
  function Seen(whole: seq<Byte>, o: nat, looks: seq<Look>, n: nat): seq<Byte>
    requires n <= |looks|
  {
    if Reached(o, looks, n) <= |whole| then whole[o..Reached(o, looks, n)] else []
  }

  /** For each round, the unfinished line it ends with. */
  function Unfinished(whole: seq<Byte>, o: nat, looks: seq<Look>): (rests: seq<seq<Byte>>)
    ensures |rests| == |looks| && forall k :: 0 <= k < |rests| ==> rests[k] == RestAfter(whole, o, looks, k)
  {
    seq(|looks|, k requires 0 <= k < |looks| => RestAfter(whole, o, looks, k))
  }

  function RestAfter(whole: seq<Byte>, o: nat, looks: seq<Look>, k: nat): seq<Byte>
    requires k < |looks|
  {
    Rest(Seen(whole, o, looks, k + 1))
  }

  /** The rounds from j up to k all end inside a line, and j is the first of them. */
  ghost predicate Stretch(rests: seq<seq<Byte>>, j: nat, k: nat)
    requires k <= |rests|
  {
    j < k && (forall m :: j <= m < k ==> rests[m] != []) && (j == 0 || rests[j - 1] == [])
  }

  /** The rounds in a row before k that ended inside a line began more than the flush time ago. */
  ghost predicate Overdue(rests: seq<seq<Byte>>, looks: seq<Look>, k: nat)
    requires k < |rests| == |looks|
  {
    exists j: nat :: Stretch(rests, j, k) && looks[k].now - looks[j].now > PARTIAL_FLUSH
  }

  ghost predicate GoneBefore(looks: seq<Look>, n: nat)
    requires n <= |looks|
  {
    exists j :: 0 <= j < n && looks[j].gone
  }

  /** The k-th round ends inside a line and sends what there is of it. */
  ghost predicate Cuts(rests: seq<seq<Byte>>, looks: seq<Look>, k: nat)
    requires k < |rests| == |looks|
  {
    rests[k] != [] && (|rests[k]| >= MAX_LINE_BYTES || GoneBefore(looks, k + 1) || Overdue(rests, looks, k))
  }

  /** The entries sent and the partial line are the one-shot split of `whole` from `o` to the descriptor. */
  ghost predicate OneShot(t: Tailed, es: seq<Entry>, whole: seq<Byte>, o: nat) {
    && o <= t.pos <= |whole|
    && Texts(es) == Messages(Lines(whole[o..t.pos]))
    && t.partial == Rest(whole[o..t.pos])
  }

  ghost predicate OneShotAfter(path: string, tf: Tailed, looks: seq<Look>, whole: seq<Byte>, n: nat)
    requires n <= |looks|
  {
    var (t, es) := Follow(path, tf, looks[..n]);
    OneShot(t, es, whole, tf.offset)
  }

  // ---- the timer is the beginning of the present stretch ----

  function Timer(rests: seq<seq<Byte>>, looks: seq<Look>, n: nat): Option<int>
    requires n <= |rests| == |looks|
  {
    if n == 0 then None else KeptSince(Timer(rests, looks, n - 1), rests[n - 1], looks[n - 1].now)
  }

  lemma {:induction false} TimerStretch(rests: seq<seq<Byte>>, looks: seq<Look>, n: nat) returns (j: nat)
    requires n <= |rests| == |looks|
    ensures Timer(rests, looks, n).Some? <==> n > 0 && rests[n - 1] != []
    ensures Timer(rests, looks, n).Some? ==> Stretch(rests, j, n) && Timer(rests, looks, n) == Some(looks[j].now)
  {
    j := 0;
    if n > 0 {
      j := TimerStretch(rests, looks, n - 1);
      if Timer(rests, looks, n - 1).None? {
        j := n - 1;
      }
    }
  }

  lemma StretchUnique(rests: seq<seq<Byte>>, i: nat, j: nat, k: nat)
    requires k <= |rests| && Stretch(rests, i, k) && Stretch(rests, j, k)
    ensures i == j
  {
    assert i > 0 ==> rests[i - 1] == [];
    assert j > 0 ==> rests[j - 1] == [];
  }

  lemma TimerOverdue(rests: seq<seq<Byte>>, looks: seq<Look>, k: nat)
    requires k < |rests| == |looks|
    ensures var timer := Timer(rests, looks, k);
            Overdue(rests, looks, k) <==> timer.Some? && looks[k].now - timer.value > PARTIAL_FLUSH
  {
    var i := TimerStretch(rests, looks, k);
    forall j: nat | Stretch(rests, j, k) ensures j == i && Timer(rests, looks, k).Some? {
      StretchUnique(rests, i, j, k);
    }
  }

  // ---- every round keeps the agreement, or is the first that cuts ----

  lemma FollowStep(path: string, tf: Tailed, looks: seq<Look>, n: nat)
    requires n < |looks|
    ensures var (t, es) := Follow(path, tf, looks[..n]);
            var f := ReadRound(path, t.(gone := t.gone || looks[n].gone), looks[n].content, looks[n].now);
            Follow(path, tf, looks[..n + 1]) == (f.file, es + f.sent)
  {
    assert looks[..n + 1][..n] == looks[..n];
  }

  ghost predicate Agrees(path: string, tf: Tailed, looks: seq<Look>, whole: seq<Byte>, n: nat)
    requires n <= |looks|
  {
    var t := Follow(path, tf, looks[..n]).0;
    && OneShotAfter(path, tf, looks, whole, n)
    && t.pos == Reached(tf.offset, looks, n) && t.gone == GoneBefore(looks, n)
    && t.partAt == Timer(Unfinished(whole, tf.offset, looks), looks, n)
  }

  lemma InStepBefore(path: string, tf: Tailed, base: seq<Byte>, looks: seq<Look>, n: nat)
    requires InStep(tf, base) && Growing(base, looks) && n < |looks|
    ensures InStep(Follow(path, tf, looks[..n]).0, looks[n].content)
  {
    var front := looks[..n];
    FollowCovers(path, tf, base, front);
    InStepGrows(Follow(path, tf, front).0, Latest(base, front), looks[n].content);
  }

  lemma SeenGrows(whole: seq<Byte>, content: seq<Byte>, o: nat, p: nat, q: nat)
    requires content <= whole && o <= p <= q <= |content|
    ensures whole[o..q] == whole[o..p] + content[p..q]
  {
    assert content[p..q] == whole[p..q];
  }

  lemma TextsSplit(seen: seq<Byte>, chunk: seq<Byte>, es: seq<Entry>, sent: seq<Entry>)
    requires Texts(es) == Messages(Lines(seen)) && Texts(sent) == Messages(Lines(Rest(seen) + chunk))
    ensures Texts(es + sent) == Messages(Lines(seen + chunk))
  {
    SplitAppend(seen, chunk);
    TextsAppend(es, sent);
    MessagesAppend(Lines(seen), Lines(Rest(seen) + chunk));
  }

  lemma ReachedStep(o: nat, looks: seq<Look>, n: nat)
    requires n < |looks| && Reached(o, looks, n) <= |looks[n].content|
    ensures Reached(o, looks, n + 1) ==
              Reached(o, looks, n) + Min(READ_CHUNK, |looks[n].content| - Reached(o, looks, n))
  {
  }

  /** What a round after agreement reads is what the contents say. */
  lemma RoundReads(whole: seq<Byte>, o: nat, looks: seq<Look>, n: nat, t: Tailed)
    requires n < |looks| && o <= t.pos == Reached(o, looks, n) <= |looks[n].content| && looks[n].content <= whole
    ensures var chunk := Chunk(t, looks[n].content);
            && t.pos + |chunk| == Reached(o, looks, n + 1) <= |whole|
            && Seen(whole, o, looks, n + 1) == whole[o..t.pos] + chunk
  {
    ReachedStep(o, looks, n);
    SeenGrows(whole, looks[n].content, o, t.pos, t.pos + |Chunk(t, looks[n].content)|);
  }

  /** It flushes exactly when it cuts. */
  lemma FlushesIffCuts(rests: seq<seq<Byte>>, looks: seq<Look>, n: nat, t: Tailed)
    requires n < |rests| == |looks| && t.gone == GoneBefore(looks, n + 1) && t.partAt == Timer(rests, looks, n)
    ensures Flushes(t, rests[n], looks[n].now) <==> Cuts(rests, looks, n)
  {
    TimerOverdue(rests, looks, n);
  }

  lemma RestJoins(seen: seq<Byte>, chunk: seq<Byte>)
    ensures Rest(Rest(seen) + chunk) == Rest(seen + chunk)
  {
    SplitAppend(seen, chunk);
  }

  lemma GoneStep(looks: seq<Look>, n: nat)
    requires n < |looks|
    ensures GoneBefore(looks, n + 1) == (GoneBefore(looks, n) || looks[n].gone)
  {
  }

  lemma RoundAgrees(path: string, tf: Tailed, base: seq<Byte>, looks: seq<Look>, whole: seq<Byte>, n: nat)
    requires InStep(tf, base) && Growing(base, looks) && n < |looks| && looks[n].content <= whole
    requires Agrees(path, tf, looks, whole, n)
    ensures var cuts := Cuts(Unfinished(whole, tf.offset, looks), looks, n);
            && (OneShotAfter(path, tf, looks, whole, n + 1) <==> !cuts)
            && (!cuts ==> Agrees(path, tf, looks, whole, n + 1))
  {
    var (before, es) := Follow(path, tf, looks[..n]);
    var t := before.(gone := GoneBefore(looks, n + 1));
    GoneStep(looks, n);
    InStepBefore(path, tf, base, looks, n);
    FollowStep(path, tf, looks, n);
    RoundOutcome(path, t, es, whole, tf.offset, looks, n);
  }

  lemma RoundOutcome(path: string, t: Tailed, es: seq<Entry>, whole: seq<Byte>, o: nat, looks: seq<Look>, n: nat)
    requires n < |looks| && InStep(t, looks[n].content) && looks[n].content <= whole && OneShot(t, es, whole, o)
    requires t.pos == Reached(o, looks, n) && t.gone == GoneBefore(looks, n + 1)
    requires t.partAt == Timer(Unfinished(whole, o, looks), looks, n)
    ensures var f := ReadRound(path, t, looks[n].content, looks[n].now);
            var rests := Unfinished(whole, o, looks);
            && f.file.pos == Reached(o, looks, n + 1) && f.file.gone == t.gone
            && (OneShot(f.file, es + f.sent, whole, o) <==> !Cuts(rests, looks, n))
            && (!Cuts(rests, looks, n) ==> f.file.partAt == Timer(rests, looks, n + 1))
  {
    var rests := Unfinished(whole, o, looks);
    var chunk := Chunk(t, looks[n].content);
    var seen := whole[o..t.pos];
    RoundReads(whole, o, looks, n, t);
    RestJoins(seen, chunk);
    assert rests[n] == Rest(t.partial + chunk);
    FlushesIffCuts(rests, looks, n, t);
    RoundKeepsOrFlushes(path, t, looks[n].content, looks[n].now);
    var f := ReadRound(path, t, looks[n].content, looks[n].now);
    if !Cuts(rests, looks, n) {
      TextsSplit(seen, chunk, es, f.sent);
    }
  }

  /** A file just opened. */
  predicate Fresh(tf: Tailed) {
    tf.partial == [] && tf.partAt.None? && !tf.gone
  }

  lemma AgreesAtFirst(path: string, tf: Tailed, base: seq<Byte>, looks: seq<Look>, whole: seq<Byte>)
    requires Fresh(tf) && InStep(tf, base) && base <= whole
    ensures Agrees(path, tf, looks, whole, 0)
  {
    assert looks[..0] == [];
    assert whole[tf.offset..tf.pos] == [];
  }

  lemma LookWithin(base: seq<Byte>, looks: seq<Look>, whole: seq<Byte>, n: nat)
    requires Growing(base, looks) && Latest(base, looks) <= whole && n < |looks|
    ensures looks[n].content <= whole && base <= whole
  {
    var last := |looks| - 1;
    PrefixTransitive(base, looks[last].content, whole);
    if n < last { PrefixTransitive(looks[n].content, looks[last].content, whole); }
  }

  /** A file that was opened at base and holds `whole` in the end. */
  ghost predicate Opened(tf: Tailed, base: seq<Byte>, looks: seq<Look>, whole: seq<Byte>) {
    Fresh(tf) && InStep(tf, base) && Growing(base, looks) && Latest(base, looks) <= whole
  }

  ghost predicate Uncut(rests: seq<seq<Byte>>, looks: seq<Look>, n: nat)
    requires n <= |rests| == |looks|
  {
    forall k :: 0 <= k < n ==> !Cuts(rests, looks, k)
  }

  lemma {:induction false} AgreesWhileUncut(
    path: string, tf: Tailed, base: seq<Byte>, looks: seq<Look>, whole: seq<Byte>, n: nat)
    requires Opened(tf, base, looks, whole) && n <= |looks| && Uncut(Unfinished(whole, tf.offset, looks), looks, n)
    ensures Agrees(path, tf, looks, whole, n)
  {
    if n == 0 {
      if looks != [] { LookWithin(base, looks, whole, 0); }
      AgreesAtFirst(path, tf, base, looks, whole);
    } else {
      AgreesWhileUncut(path, tf, base, looks, whole, n - 1);
      LookWithin(base, looks, whole, n - 1);
      RoundAgrees(path, tf, base, looks, whole, n - 1);
    }
  }

  lemma FirstCutShows(path: string, tf: Tailed, base: seq<Byte>, looks: seq<Look>, whole: seq<Byte>, n: nat)
    requires Opened(tf, base, looks, whole) && n < |looks| && Uncut(Unfinished(whole, tf.offset, looks), looks, n)
    requires OneShotAfter(path, tf, looks, whole, n + 1)
    ensures Uncut(Unfinished(whole, tf.offset, looks), looks, n + 1)
  {
    AgreesWhileUncut(path, tf, base, looks, whole, n);
    LookWithin(base, looks, whole, n);
    RoundAgrees(path, tf, base, looks, whole, n);
  }

  lemma {:induction false} UncutWhileOneShot(
    path: string, tf: Tailed, base: seq<Byte>, looks: seq<Look>, whole: seq<Byte>, n: nat)
    requires Opened(tf, base, looks, whole) && n <= |looks|
    requires forall m :: 0 <= m <= n ==> OneShotAfter(path, tf, looks, whole, m)
    ensures Uncut(Unfinished(whole, tf.offset, looks), looks, n)
  {
    if n > 0 {
      UncutWhileOneShot(path, tf, base, looks, whole, n - 1);
      FirstCutShows(path, tf, base, looks, whole, n - 1);
    }
  }

  /**
   However growth is divided over rounds: after every round what has been sent
   is the messages of the complete lines seen so far, and what is kept is the
   unfinished rest, if and only if no round ends inside a line that is too
   long, of a file marked gone, or after too long a stretch of such rounds.
   */
  lemma OneShotIff(path: string, tf: Tailed, base: seq<Byte>, looks: seq<Look>, whole: seq<Byte>)
    requires Opened(tf, base, looks, whole)
    ensures var rests := Unfinished(whole, tf.offset, looks);
            (forall n :: 0 <= n <= |looks| ==> OneShotAfter(path, tf, looks, whole, n)) <==>
            (forall k :: 0 <= k < |looks| ==> !Cuts(rests, looks, k))
  {
    var rests := Unfinished(whole, tf.offset, looks);
    if forall k :: 0 <= k < |looks| ==> !Cuts(rests, looks, k) {
      forall n | 0 <= n <= |looks| ensures OneShotAfter(path, tf, looks, whole, n) {
        AgreesWhileUncut(path, tf, base, looks, whole, n);
      }
    }
    if forall n :: 0 <= n <= |looks| ==> OneShotAfter(path, tf, looks, whole, n) {
      UncutWhileOneShot(path, tf, base, looks, whole, |looks|);
    }
  }

  lemma {:induction false} ReachedWithin(base: seq<Byte>, looks: seq<Look>, o: nat, n: nat)
    requires o <= |base| && Growing(base, looks) && n < |looks|
    ensures Reached(o, looks, n + 1) <= |looks[n].content|
  {
    assert base <= looks[n].content;
    if n > 0 {
      ReachedWithin(base, looks, o, n - 1);
      assert looks[n - 1].content <= looks[n].content;
    }
  }

  lemma ShortUnfinished(base: seq<Byte>, looks: seq<Look>, whole: seq<Byte>, o: nat, k: nat)
    requires o <= |base| && Growing(base, looks) && Latest(base, looks) <= whole && k < |looks|
    requires ShortLines(whole[o..])
    ensures |Unfinished(whole, o, looks)[k]| < MAX_LINE_BYTES
  {
    ReachedWithin(base, looks, o, k);
    LookWithin(base, looks, whole, k);
    var p := Reached(o, looks, k + 1);
    ShortPrefix(whole, o, p);
    assert Seen(whole, o, looks, k + 1) == whole[o..p];
    assert Unfinished(whole, o, looks)[k] == RestAfter(whole, o, looks, k);
  }

  lemma ShortPrefix(whole: seq<Byte>, o: nat, p: nat)
    requires o <= p <= |whole| && ShortLines(whole[o..])
    ensures |Rest(whole[o..p])| < MAX_LINE_BYTES
  {
    ShortRest(whole[o..], p - o);
    assert whole[o..][..p - o] == whole[o..p];
  }

  /**
   With lines below the limit and a file that is not gone, reading in rounds is
   splitting in one go if and only if no round ends inside a line more than the
   flush time after the first of the rounds in a row that did.
   */
  lemma RefinesOneShot(path: string, tf: Tailed, base: seq<Byte>, looks: seq<Look>, whole: seq<Byte>)
    requires Opened(tf, base, looks, whole) && ShortLines(whole[tf.offset..])
    requires forall m :: 0 <= m < |looks| ==> !looks[m].gone
    ensures var rests := Unfinished(whole, tf.offset, looks);
            (forall n :: 0 <= n <= |looks| ==> OneShotAfter(path, tf, looks, whole, n)) <==>
            (forall k :: 0 <= k < |looks| && rests[k] != [] ==> !Overdue(rests, looks, k))
  {
    OneShotIff(path, tf, base, looks, whole);
    var rests := Unfinished(whole, tf.offset, looks);
    forall k | 0 <= k < |looks| ensures Cuts(rests, looks, k) <==> rests[k] != [] && Overdue(rests, looks, k) {
      ShortUnfinished(base, looks, whole, tf.offset, k);
    }
  }

  // ---- a line can be cut in the round that first sees it ----

  const A: seq<Byte> := [65]
  const B: seq<Byte> := [66]
  const C: seq<Byte> := [67]
  const END: seq<Byte> := [NEWLINE]

  const OPENED := Tailed(1, 0, 0, [], None, false)

  /** Rounds that find "A", "A\nB" and "A\nB\nC". */
  predicate Busy(looks: seq<Look>) {
    && |looks| == 3 && looks[0] == Look(A, 0, false)
    && looks[1] == Look(A + END + B, 4000, false) && looks[2] == Look(A + END + B + END + C, 5001, false)
  }

  lemma OneLine(a: Byte, b: seq<Byte>)
    requires a != NEWLINE && NEWLINE !in b
    ensures Lines([a] + END + b) == [[a]] && Rest([a] + END + b) == b
    ensures Lines(b) == [] && Rest(b) == b
  {
    assert Join([[a]]) + b == [a] + END + b by { JoinCons([a], []); assert [[a]][1..] == []; }
    SplitUnique([[a]], b);
    SplitUnique([], b);
    assert [] + b == b;
  }

  lemma Plain(a: Byte)
    requires 65 <= a <= 67
    ensures Messages([[a]]) == [[a]]
  {
    assert TrimCR([a]) == [a] && SpaceAt([a]) == 0;
    assert [[a]][1..] == [];
  }

  /** A round of a file in step: what is in hand is a line and the beginning of the next. */
  lemma BusyRound(t: Tailed, content: seq<Byte>, now: int, a: Byte, b: Byte)
    requires InStep(t, content) && |content| <= 5 && t.partial == [a] && content[t.pos..] == END + [b]
    requires 65 <= a <= 67 && 65 <= b <= 67 && !t.gone && t.partAt == Some(0)
    ensures var f := ReadRound("app.log", t, content, now);
            && f.file.pos == |content| && !f.file.gone
            && (now <= PARTIAL_FLUSH ==> Texts(f.sent) == [[a]] && f.file.partial == [b] && f.file.partAt == Some(0))
            && (now > PARTIAL_FLUSH ==> Texts(f.sent) == [[a], [b]] && f.file.partial == [])
  {
    RoundKeepsOrFlushes("app.log", t, content, now);
    assert Chunk(t, content) == END + [b];
    assert t.partial + (END + [b]) == [a] + END + [b];
    OneLine(a, [b]);
    Plain(a);
    Plain(b);
  }

  lemma FirstRound()
    ensures var f := ReadRound("app.log", OPENED, A, 0);
            f.sent == [] && f.file.partial == A && f.file.partAt == Some(0) && f.file.pos == 1 && !f.file.gone
  {
    RoundKeepsOrFlushes("app.log", OPENED, A, 0);
    assert OPENED.partial + Chunk(OPENED, A) == A;
    SplitUnique([], A);
    assert [] + A == A;
    var f := ReadRound("app.log", OPENED, A, 0);
    assert |Texts(f.sent)| == |f.sent|;
  }

  lemma BusyGrows(looks: seq<Look>)
    requires Busy(looks)
    ensures InStep(OPENED, []) && Growing([], looks)
  {
    assert looks[1].content <= looks[2].content;
  }

  lemma AfterOne(looks: seq<Look>)
    requires Busy(looks)
    ensures var (t, es) := Follow("app.log", OPENED, looks[..1]);
            es == [] && t.partial == A && t.partAt == Some(0) && t.pos == 1 && !t.gone
  {
    FirstRound();
    assert looks[..0] == [];
    FollowStep("app.log", OPENED, looks, 0);
    assert [] + ReadRound("app.log", OPENED, A, 0).sent == [];
  }

  lemma AfterTwo(looks: seq<Look>)
    requires Busy(looks)
    ensures var (t, es) := Follow("app.log", OPENED, looks[..2]);
            Texts(es) == [A] && t.partial == B && t.partAt == Some(0) && t.pos == 3 && !t.gone
  {
    AfterOne(looks);
    var (t, es) := Follow("app.log", OPENED, looks[..1]);
    BusyGrows(looks);
    InStepBefore("app.log", OPENED, [], looks, 1);
    assert looks[1].content[1..] == END + B;
    BusyRound(t, looks[1].content, 4000, 65, 66);
    FollowStep("app.log", OPENED, looks, 1);
    TextsAppend(es, ReadRound("app.log", t, looks[1].content, 4000).sent);
  }

  lemma AfterThree(looks: seq<Look>)
    requires Busy(looks)
    ensures var (t, es) := Follow("app.log", OPENED, looks[..3]);
            Texts(es) == [A, B, C] && t.partial == [] && t.pos == 5
  {
    AfterTwo(looks);
    var (t, es) := Follow("app.log", OPENED, looks[..2]);
    BusyGrows(looks);
    InStepBefore("app.log", OPENED, [], looks, 2);
    assert looks[2].content[3..] == END + C;
    BusyRound(t, looks[2].content, 5001, 66, 67);
    FollowStep("app.log", OPENED, looks, 2);
    TextsAppend(es, ReadRound("app.log", t, looks[2].content, 5001).sent);
    assert [A] + [B, C] == [A, B, C];
  }

  /**
   "How long an unterminated last line waits for its newline" is not kept: here
   no line waits for as long, and yet the third round sends "C", which it is the
   first to see, because the two rounds before it also ended inside a line.
   */
  lemma BusyFileIsCut(looks: seq<Look>)
    requires Busy(looks)
    ensures Opened(OPENED, [], looks, looks[2].content)
    ensures var (t, es) := Follow("app.log", OPENED, looks);
            Texts(es) == [A, B, C] && t.partial == [] && t.pos == 5
    ensures Lines(looks[2].content) == [A, B] && Rest(looks[2].content) == C
  {
    BusyGrows(looks);
    AfterThree(looks);
    assert looks[..3] == looks;
    TwoLines();
  }

  lemma TwoLines()
    ensures Lines(A + END + B + END + C) == [A, B] && Rest(A + END + B + END + C) == C
  {
    JoinCons(B, []);
    JoinCons(A, [B]);
    assert [A] + [B] == [A, B] && [B] + [] == [B];
    SplitUnique([A, B], C);
    assert Join([A, B]) + C == A + END + B + END + C;
  }
}
