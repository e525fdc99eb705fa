/**
 Safety of log delivery over whole runs: positions never pass an unsettled
 byte, in memory or on disk, across crashes, rotations and restarts.
 */
module LogSafety {
  import opened Prelude
  import opened LogLines
  import opened LogTail
  import opened LogPositions
  import opened LogDelivery
  import Ship = LogShip

  // ---- histories and queues ----

  ghost predicate Extends(h: History, h': History) {
    h.accepted <= h'.accepted && h.refused <= h'.refused && h.blanks <= h'.blanks
    && h.skipped <= h'.skipped && h.passed <= h'.passed
  }

  lemma CoversGrows(a: seq<Entry>, b: seq<Entry>, i: nat, x: nat)
    requires a <= b && Covers(a, i, x)
    ensures Covers(b, i, x)
  {
    var k :| 0 <= k < |a| && a[k].inode == i && a[k].lo <= x < a[k].hi;
    assert b[k] == a[k];
  }

  lemma WithinGrows(a: seq<Span>, b: seq<Span>, i: nat, x: nat)
    requires a <= b && Within(a, i, x)
    ensures Within(b, i, x)
  {
    var k :| 0 <= k < |a| && a[k].inode == i && a[k].lo <= x < a[k].hi;
    assert b[k] == a[k];
  }

  lemma BehindGrows(h: History, h': History, i: nat, x: nat)
    requires Extends(h, h') && Behind(h, i, x)
    ensures Behind(h', i, x)
  {
    if Covers(h.accepted, i, x) { CoversGrows(h.accepted, h'.accepted, i, x); }
    else if Covers(h.refused, i, x) { CoversGrows(h.refused, h'.refused, i, x); }
    else if Within(h.blanks, i, x) { WithinGrows(h.blanks, h'.blanks, i, x); }
    else if Within(h.skipped, i, x) { WithinGrows(h.skipped, h'.skipped, i, x); }
    else { WithinGrows(h.passed, h'.passed, i, x); }
  }

  lemma AllBehindGrows(h: History, h': History, i: nat, n: nat)
    requires Extends(h, h') && AllBehind(h, i, n)
    ensures AllBehind(h', i, n)
  {
    forall b | 0 <= b < n ensures Behind(h', i, b) {
      BehindGrows(h, h', i, b);
    }
  }

  lemma CoversSplit(a: seq<Entry>, b: seq<Entry>, i: nat, x: nat)
    ensures Covers(a + b, i, x) <==> Covers(a, i, x) || Covers(b, i, x)
  {
    if Covers(a + b, i, x) {
      var k :| 0 <= k < |a + b| && (a + b)[k].inode == i && (a + b)[k].lo <= x < (a + b)[k].hi;
      if k < |a| { assert a[k] == (a + b)[k]; } else { assert b[k - |a|] == (a + b)[k]; }
    }
    if Covers(a, i, x) { CoversGrows(a, a + b, i, x); }
    if Covers(b, i, x) {
      var k :| 0 <= k < |b| && b[k].inode == i && b[k].lo <= x < b[k].hi;
      assert (a + b)[|a| + k] == b[k];
    }
  }

  /** The queue may get longer and the history longer: nothing gets worse. */
  lemma FlowGrows(h: History, h': History, q: seq<Entry>, q': seq<Entry>, i: nat, n: nat)
    requires Extends(h, h') && q <= q' && BehindOrQueued(h, q, i, n)
    ensures BehindOrQueued(h', q', i, n)
  {
    forall b | 0 <= b < n ensures Behind(h', i, b) || Covers(q', i, b) {
      if Behind(h, i, b) { BehindGrows(h, h', i, b); } else { CoversGrows(q, q', i, b); }
    }
  }

  lemma OrderedGrows(h: History, h': History, q: seq<Entry>)
    requires Extends(h, h') && Ordered(h, q)
    ensures Ordered(h', q)
  {
    forall k | 0 <= k < |q| ensures BehindOrQueued(h', q[..k], q[k].inode, q[k].lo) {
      FlowGrows(h, h', q[..k], q[..k], q[k].inode, q[k].lo);
    }
  }

  /** Entries join the queue one at a time, each right after what its file sent before. */
  lemma OrderedAppend(h: History, q: seq<Entry>, e: Entry)
    requires Ordered(h, q) && BehindOrQueued(h, q, e.inode, e.lo)
    ensures Ordered(h, q + [e])
  {
    var q' := q + [e];
    forall k | 0 <= k < |q'| ensures BehindOrQueued(h, q'[..k], q'[k].inode, q'[k].lo) {
      if k < |q| {
        assert BehindOrQueued(h, q[..k], q[k].inode, q[k].lo);
        assert q'[..k] == q[..k];
      } else {
        assert q'[..k] == q;
      }
    }
  }

  lemma QueuedThrough(h: History, q: seq<Entry>, e: Entry)
    requires BehindOrQueued(h, q, e.inode, e.lo)
    ensures BehindOrQueued(h, q + [e], e.inode, e.hi)
  {
    forall b | 0 <= b < e.hi ensures Behind(h, e.inode, b) || Covers(q + [e], e.inode, b) {
      CoversSplit(q, [e], e.inode, b);
      if b >= e.lo { assert [e][0].lo <= b < [e][0].hi; }
    }
  }

  /** A history that settles the head of the queue. */
  ghost predicate Settles(h: History, h': History, head: seq<Entry>) {
    && Extends(h, h')
    && forall i, b :: 0 <= b && Covers(head, i, b) ==> Behind(h', i, b)
  }

  lemma SettleHead(h: History, h': History, head: seq<Entry>, rest: seq<Entry>, i: nat, n: nat)
    requires Settles(h, h', head) && BehindOrQueued(h, head + rest, i, n)
    ensures BehindOrQueued(h', rest, i, n)
  {
    forall b | 0 <= b < n ensures Behind(h', i, b) || Covers(rest, i, b) {
      if Behind(h, i, b) { BehindGrows(h, h', i, b); } else { CoversSplit(head, rest, i, b); }
    }
  }

  lemma SettleOrdered(h: History, h': History, head: seq<Entry>, rest: seq<Entry>)
    requires Settles(h, h', head) && Ordered(h, head + rest)
    ensures Ordered(h', rest)
  {
    var q := head + rest;
    forall k | 0 <= k < |rest| ensures BehindOrQueued(h', rest[..k], rest[k].inode, rest[k].lo) {
      var j := |head| + k;
      assert BehindOrQueued(h, q[..j], q[j].inode, q[j].lo);
      assert q[..j] == head + rest[..k];
      SettleHead(h, h', head, rest[..k], rest[k].inode, rest[k].lo);
    }
  }

  /** Everything up to the end of a settled entry is settled. */
  lemma SettledPrefix(h: History, h': History, head: seq<Entry>, rest: seq<Entry>, k: nat)
    requires Settles(h, h', head) && Ordered(h, head + rest) && k < |head|
    ensures AllBehind(h', head[k].inode, head[k].hi)
  {
    var q := head + rest;
    assert BehindOrQueued(h, q[..k], q[k].inode, q[k].lo);
    assert q[..k] == head[..k];
    forall b | 0 <= b < head[k].hi ensures Behind(h', head[k].inode, b) {
      if b >= head[k].lo {
        assert Covers(head, head[k].inode, b);
      } else if Behind(h, head[k].inode, b) {
        BehindGrows(h, h', head[k].inode, b);
      } else {
        CoversGrows(head[..k], head, head[k].inode, b);
      }
    }
  }

  // ---- growth of files and of the history keeps the invariant ----

  ghost predicate Grew(data: Data, data': Data) {
    forall i :: i in data ==> i in data' && data[i] <= data'[i]
  }

  lemma TrueGrows(es: seq<Entry>, data: Data, data': Data)
    requires Grew(data, data') && AllTrue(es, data)
    ensures AllTrue(es, data')
  {
    forall k | 0 <= k < |es| ensures es[k].inode in data' && Truthful(es[k], data'[es[k].inode]) {
      var old_, new_ := data[es[k].inode], data'[es[k].inode];
      assert old_[es[k].lo..es[k].hi] == new_[es[k].lo..es[k].hi];
    }
  }

  lemma BlankGrows(spans: seq<Span>, data: Data, data': Data)
    requires Grew(data, data') && AllBlank(spans, data)
    ensures AllBlank(spans, data')
  {
    forall k | 0 <= k < |spans|
      ensures spans[k].inode in data' && spans[k].lo < spans[k].hi <= |data'[spans[k].inode]|
      ensures Message(LineOf(data'[spans[k].inode][spans[k].lo..spans[k].hi])) == None
    {
      var old_, new_ := data[spans[k].inode], data'[spans[k].inode];
      assert old_[spans[k].lo..spans[k].hi] == new_[spans[k].lo..spans[k].hi];
    }
  }

  lemma FilesGrow(files: map<string, Tailed>, data: Data, data': Data)
    requires Grew(data, data') && FilesOk(files, data)
    ensures FilesOk(files, data')
  {
    forall p | p in files ensures files[p].inode in data' && InStep(files[p], data'[files[p].inode]) {
      InStepGrows(files[p], data[files[p].inode], data'[files[p].inode]);
    }
  }

  lemma ReadingGrows(a: Agent, data: Data, data': Data)
    requires Grew(data, data') && ReadingOk(a, data)
    ensures ReadingOk(a, data')
  {
    if a.reading.Some? {
      var r := a.reading.value;
      var i := r.file.inode;
      assert data[i][r.file.offset..r.file.pos] == data'[i][r.file.offset..r.file.pos];
    }
  }

  lemma PosGrows(m: PosMap, data: Data, data': Data, h: History, h': History)
    requires Grew(data, data') && Extends(h, h') && PosOk(m, data, h)
    ensures PosOk(m, data', h')
  {
    forall p | p in m
      ensures m[p].inode in data' && m[p].offset <= |data'[m[p].inode]| && AllBehind(h', m[p].inode, m[p].offset)
    {
      AllBehindGrows(h, h', m[p].inode, m[p].offset);
    }
  }

  lemma AcksGrow(acking: seq<Entry>, data: Data, data': Data, h: History, h': History)
    requires Grew(data, data') && Extends(h, h') && AcksOk(acking, data, h)
    ensures AcksOk(acking, data', h')
  {
    forall k | 0 <= k < |acking|
      ensures acking[k].inode in data' && acking[k].hi <= |data'[acking[k].inode]|
      ensures AllBehind(h', acking[k].inode, acking[k].hi)
    {
      AllBehindGrows(h, h', acking[k].inode, acking[k].hi);
    }
  }

  lemma FlowOkGrows(a: Agent, h: History, h': History)
    requires Extends(h, h') && FlowOk(a, h)
    ensures FlowOk(a, h')
  {
    var q := Queue(a);
    OrderedGrows(h, h', q);
    forall p | p in a.files ensures BehindOrQueued(h', q, a.files[p].inode, a.files[p].offset) {
      FlowGrows(h, h', q, q, a.files[p].inode, a.files[p].offset);
    }
    if a.reading.Some? {
      FlowGrows(h, h', q, q, a.reading.value.file.inode, a.reading.value.file.offset);
    }
  }

  lemma AgentGrows(c: Config, a: Agent, data: Data, data': Data, h: History, h': History)
    requires Grew(data, data') && Extends(h, h') && AgentOk(c, a, data, h)
    ensures AgentOk(c, a, data', h')
  {
    PosGrows(a.positions, data, data', h, h');
    if a.snapshot.Some? { PosGrows(a.snapshot.value, data, data', h, h'); }
    FilesGrow(a.files, data, data');
    ReadingGrows(a, data, data');
    TrueGrows(Queue(a), data, data');
    AcksGrow(a.ship.acking, data, data', h, h');
    if !a.cancelled { FlowOkGrows(a, h, h'); }
  }

  lemma HistoryGrows(data: Data, data': Data, h: History)
    requires Grew(data, data') && HistoryOk(data, h)
    ensures HistoryOk(data', h)
  {
    TrueGrows(h.accepted, data, data');
    TrueGrows(h.refused, data, data');
    BlankGrows(h.blanks, data, data');
  }

  // ---- each kind of step keeps the invariant ----

  lemma WriterKeeps(c: Config, s: Sys, step: Step)
    requires Inv(c, s) && Enabled(c, s, step) && (step.Append? || step.Create?)
    ensures Inv(c, Next(c, s, step))
  {
    var s' := Next(c, s, step);
    assert Grew(s.data, s'.data);
    HistoryGrows(s.data, s'.data, s.past);
    PosGrows(s.saved, s.data, s'.data, s.past, s.past);
    if s.agent.Some? { AgentGrows(c, s.agent.value, s.data, s'.data, s.past, s.past); }
  }

  lemma SetPosOk(m: PosMap, path: string, pos: Position, data: Data, h: History)
    requires PosOk(m, data, h) && 0 !in data
    requires pos.inode in data && pos.offset <= |data[pos.inode]| && AllBehind(h, pos.inode, pos.offset)
    ensures PosOk(SetPos(m, path, pos), data, h)
    ensures path in SetPos(m, path, pos)
  {
  }

  /** A step of the process is safe when its new memory is, under a longer history. */
  lemma Assemble(c: Config, s: Sys, a: Agent, h: History)
    requires Inv(c, s) && Extends(s.past, h) && HistoryOk(s.data, h) && AgentOk(c, a, s.data, h)
    requires SkippedOk(h.skipped, s.seen)
    ensures Inv(c, s.(agent := Some(a), past := h))
  {
    PosGrows(s.saved, s.data, s.data, s.past, h);
  }

  /** Entries may move between the channel and the shipper, and acks into the positions. */
  lemma Requeue(c: Config, a: Agent, a': Agent, data: Data, h: History)
    requires AgentOk(c, a, data, h) && a' == a.(channel := a'.channel, ship := a'.ship, positions := a'.positions)
    requires Queue(a') == Queue(a) && Ship.Valid(a'.ship, c.lim) && AcksOk(a'.ship.acking, data, h)
    requires PosOk(a'.positions, data, h) && a.positions.Keys <= a'.positions.Keys
    ensures AgentOk(c, a', data, h)
  {
    if !a.cancelled { assert FlowOk(a', h); }
  }

  /** Opening: at a delivered position, at 0, or past bytes that are now accounted as skipped. */
  lemma OpenKeeps(c: Config, s: Sys, p: string)
    requires Inv(c, s) && Enabled(c, s, Open(p))
    ensures Inv(c, Next(c, s, Open(p)))
  {
    var s' := OpenFile(s, s.agent.value, p);
    OpenParts(s, s.agent.value, p);
    OpenBehind(c, s, p);
    OpenInv(c, s, s', p);
    assert Next(c, s, Open(p)) == s';
  }

  /** What opening changes, and how. */
  ghost predicate Opens(s: Sys, s': Sys, p: string) {
    && s.agent.Some? && s'.agent.Some? && p in s.dir && s.dir[p] in s.data && p in s'.agent.value.files
    && var a, a' := s.agent.value, s'.agent.value;
    && var tf := a'.files[p];
    && s' == s.(agent := Some(a'), past := s'.past, seen := s'.seen)
    && a' == a.(files := a.files[p := tf], positions := SetPos(a.positions, p, Position(tf.inode, tf.offset)))
    && tf == Tailed(s.dir[p], tf.offset, tf.offset, [], None, false) && tf.offset <= |s.data[tf.inode]|
    && Extends(s.past, s'.past)
    && s'.past == s.past.(skipped := s'.past.skipped, passed := s'.past.passed)
    && (s'.past.skipped == s.past.skipped
        || (s'.past.skipped == s.past.skipped + [Span(tf.inode, 0, tf.offset)] && tf.inode !in s.seen))
    && (forall i :: i in s.seen ==> i in s'.seen && s'.seen[i] == s.seen[i])
    && tf.inode in s'.seen && (tf.inode !in s.seen ==> tf.offset <= s'.seen[tf.inode])
  }

  lemma OpenParts(s: Sys, a: Agent, p: string)
    requires s.agent == Some(a) && p in s.dir && s.dir[p] in s.data
    ensures Opens(s, OpenFile(s, a, p), p)
  {
  }

  lemma OpenInv(c: Config, s: Sys, s': Sys, p: string)
    requires Inv(c, s) && Opens(s, s', p)
    requires AllBehind(s'.past, s.dir[p], s'.agent.value.files[p].offset)
    ensures Inv(c, s')
  {
    var a, a' := s.agent.value, s'.agent.value;
    AgentGrows(c, a, s.data, s.data, s.past, s'.past);
    OpenAgent(c, a, a', p, s.data, s'.past);
    OpenSkips(s.past, s.seen, s'.past, s'.seen, Span(s.dir[p], 0, a'.files[p].offset));
    Assemble(c, s.(seen := s'.seen), a', s'.past);
    assert s' == s.(seen := s'.seen).(agent := Some(a'), past := s'.past);
  }

  lemma OpenSkips(h: History, seen: map<nat, nat>, h': History, seen': map<nat, nat>, span: Span)
    requires SkippedOk(h.skipped, seen)
    requires h'.skipped == h.skipped || (h'.skipped == h.skipped + [span] && span.inode !in seen)
    requires forall i :: i in seen ==> i in seen' && seen'[i] == seen[i]
    requires span.inode in seen' && (span.inode !in seen ==> span.hi <= seen'[span.inode])
    ensures SkippedOk(h.skipped, seen') && SkippedOk(h'.skipped, seen')
  {
  }

  lemma OpenAgent(c: Config, a: Agent, a': Agent, p: string, data: Data, h: History)
    requires AgentOk(c, a, data, h) && 0 !in data && p in a'.files
    requires var tf := a'.files[p];
             && a' == a.(files := a.files[p := tf], positions := SetPos(a.positions, p, Position(tf.inode, tf.offset)))
             && tf.inode in data && InStep(tf, data[tf.inode]) && AllBehind(h, tf.inode, tf.offset)
    ensures AgentOk(c, a', data, h)
  {
    var tf := a'.files[p];
    SetPosOk(a.positions, p, Position(tf.inode, tf.offset), data, h);
    assert Queue(a') == Queue(a);
    if !a.cancelled {
      forall r | r in a'.files ensures BehindOrQueued(h, Queue(a'), a'.files[r].inode, a'.files[r].offset) {
        if r != p { assert a'.files[r] == a.files[r]; }
      }
      assert FlowOk(a', h);
    }
  }

  lemma OpenBehind(c: Config, s: Sys, p: string)
    requires Inv(c, s) && Enabled(c, s, Open(p))
    ensures var s' := OpenFile(s, s.agent.value, p);
            AllBehind(s'.past, s.dir[p], s'.agent.value.files[p].offset)
            && s'.agent.value.files[p].offset <= |s.data[s.dir[p]]|
  {
    var a := s.agent.value;
    var s' := OpenFile(s, a, p);
    var i := s.dir[p];
    var o := s'.agent.value.files[p].offset;
    if p in a.positions {
      assert AllBehind(s.past, a.positions[p].inode, a.positions[p].offset);
    } else if i in s.seen {
      var k := |s.past.passed|;
      assert TakesForNew(s, a, p) ==> s'.past.passed[k] == Span(i, 0, o);
    } else {
      var k := |s.past.skipped|;
      assert TakesForNew(s, a, p) ==> s'.past.skipped[k] == Span(i, 0, o);
    }
  }

  lemma BeginKeeps(c: Config, s: Sys, p: string)
    requires Inv(c, s) && Enabled(c, s, Begin(p))
    ensures Inv(c, Next(c, s, Begin(p)))
  {
    var a := s.agent.value;
    BeginHolds(p, a.files[p], s.data[a.files[p].inode]);
  }

  /** A piece leaves the bytes in hand for the queue, or is blank. */
  lemma PieceKeeps(c: Config, s: Sys, a: Agent, a': Agent, sent: seq<Entry>, path: string, hi: nat)
    requires Inv(c, s) && s.agent == Some(a) && PieceOf(c, a, a', sent, path, hi, s.data, s.past)
    ensures var tf := a.reading.value.file;
            Inv(c, Sent(s, a', sent, tf.inode, tf.offset, hi))
  {
    var tf := a.reading.value.file;
    var s' := Sent(s, a', sent, tf.inode, tf.offset, hi);
    var b, h, h' := s'.agent.value, s.past, s'.past;
    assert Extends(h, h');
    AgentGrows(c, a, s.data, s.data, h, h');
    PosGrows(a'.positions, s.data, s.data, h, h');
    PieceAgent(c, a, a', sent, path, hi, s.data, h');
    PieceHistory(sent, path, tf, hi, s.data, h);
    Assemble(c, s, b, h');
    assert s' == s.(agent := Some(b), past := h');
  }

  lemma PieceHistory(sent: seq<Entry>, path: string, tf: Tailed, hi: nat, data: Data, h: History)
    requires tf.inode in data && Accounts(sent, path, tf, hi, data[tf.inode]) && HistoryOk(data, h)
    ensures sent == [] && tf.offset < hi ==> HistoryOk(data, h.(blanks := h.blanks + [Span(tf.inode, tf.offset, hi)]))
  {
  }

  /** `a'` is `a` after its reading moved the offset to `hi`. */
  ghost predicate PieceOf(
    c: Config, a: Agent, a': Agent, sent: seq<Entry>, path: string, hi: nat, data: Data, h: History) {
    && a.reading.Some?
    && var tf := a.reading.value.file;
    && tf.inode in data && Accounts(sent, path, tf, hi, data[tf.inode])
    && a' == a.(reading := a'.reading, files := a'.files, positions := a'.positions)
    && PosOk(a'.positions, data, h) && (forall p :: p in a'.files ==> p in a'.positions)
    && FilesOk(a'.files, data) && ReadingOk(a', data)
    && (a'.reading.Some? ==> a'.reading.value.file.inode == tf.inode && a'.reading.value.file.offset == hi)
    && (forall p :: p in a'.files ==>
          (p in a.files && a'.files[p] == a.files[p]) || (a'.files[p].inode == tf.inode && a'.files[p].offset == hi))
  }

  lemma PieceAgent(c: Config, a: Agent, a': Agent, sent: seq<Entry>, path: string, hi: nat, data: Data, h: History)
    requires AgentOk(c, a, data, h) && PieceOf(c, a, a', sent, path, hi, data, h)
    requires var tf := a.reading.value.file;
             sent == [] && tf.offset < hi ==>
               h.blanks != [] && h.blanks[|h.blanks| - 1] == Span(tf.inode, tf.offset, hi)
    ensures AgentOk(c, a'.(channel := a'.channel + sent), data, h)
  {
    var tf := a.reading.value.file;
    var b := a'.(channel := a'.channel + sent);
    var q, q' := Queue(a), Queue(b);
    assert q' == q + sent;
    assert AllTrue(q', data);
    if !a.cancelled {
      PieceFlow(h, q, sent, tf.inode, tf.offset, hi);
      forall p | p in b.files ensures BehindOrQueued(h, q', b.files[p].inode, b.files[p].offset) {
        if p in a.files && b.files[p] == a.files[p] {
          FlowGrows(h, h, q, q', a.files[p].inode, a.files[p].offset);
        }
      }
      assert FlowOk(b, h);
    }
  }

  lemma PieceFlow(h: History, q: seq<Entry>, sent: seq<Entry>, i: nat, lo: nat, hi: nat)
    requires Ordered(h, q) && BehindOrQueued(h, q, i, lo) && lo <= hi
    requires sent == [] && lo < hi ==> h.blanks != [] && h.blanks[|h.blanks| - 1] == Span(i, lo, hi)
    requires sent != [] ==> |sent| == 1 && sent[0].inode == i && sent[0].lo == lo && sent[0].hi == hi
    ensures Ordered(h, q + sent) && BehindOrQueued(h, q + sent, i, hi)
  {
    if sent == [] {
      assert q + sent == q;
      forall b | lo <= b < hi ensures Behind(h, i, b) {
        assert Within(h.blanks, i, b);
      }
    } else {
      assert sent == [sent[0]];
      OrderedAppend(h, q, sent[0]);
      QueuedThrough(h, q, sent[0]);
    }
  }

  lemma CutKeeps(c: Config, s: Sys)
    requires Inv(c, s) && Enabled(c, s, Cut)
    ensures Inv(c, Next(c, s, Cut))
  {
    var a := s.agent.value;
    var r := a.reading.value;
    var (r', sent) := CutLine(r);
    CutLineHolds(r, s.data[r.file.inode]);
    PieceKeeps(c, s, a, a.(reading := Some(r')), sent, r.path, r'.file.offset);
  }

  lemma EndPiece(c: Config, a: Agent, data: Data, h: History, now: int, present: bool)
    requires AgentOk(c, a, data, h) && a.reading.Some? && !HasLine(a.reading.value)
    ensures var r := a.reading.value;
            var f := EndRead(r, now);
            PieceOf(c, a, Finish(a, r.path, f, present), f.sent, r.path, f.file.offset, data, h)
  {
    var r := a.reading.value;
    var f := EndRead(r, now);
    EndReadHolds(r, data[r.file.inode], now);
    var a' := Finish(a, r.path, f, present);
    assert FilesOk(a'.files, data);
  }

  lemma EndKeeps(c: Config, s: Sys)
    requires Inv(c, s) && Enabled(c, s, End)
    ensures Inv(c, Next(c, s, End))
  {
    var a := s.agent.value;
    var r := a.reading.value;
    var f := EndRead(r, s.now);
    EndPiece(c, a, s.data, s.past, s.now, r.path in s.dir);
    PieceKeeps(c, s, a, Finish(a, r.path, f, r.path in s.dir), f.sent, r.path, f.file.offset);
  }

  lemma RecvQueue(c: Config, a: Agent, a': Agent, size: nat)
    requires Ship.Valid(a.ship, c.lim) && a.ship.phase.Collecting? && a.channel != []
    requires a' == a.(channel := a.channel[1..], ship := Ship.Receive(a.ship, c.lim, a.channel[0], size))
    ensures Queue(a') == Queue(a) && Ship.Valid(a'.ship, c.lim)
  {
    Ship.ReceiveValid(a.ship, c.lim, a.channel[0], size);
    MoveFirst(Ship.Pending(a.ship), a.channel);
  }

  lemma MoveFirst(pending: seq<Entry>, channel: seq<Entry>)
    requires channel != []
    ensures pending + [channel[0]] + channel[1..] == pending + channel
  {
    assert channel == [channel[0]] + channel[1..];
  }

  lemma AckQueue(c: Config, a: Agent)
    requires Ship.Valid(a.ship, c.lim) && a.ship.phase.Acking?
    ensures Ship.Valid(Ship.AckOne(a.ship, c.lim), c.lim)
    ensures Ship.Pending(Ship.AckOne(a.ship, c.lim)) == Ship.Pending(a.ship)
  {
    Ship.ResumeValid(a.ship.(acking := a.ship.acking[1..]), c.lim);
  }

  lemma RecvAgent(c: Config, a: Agent, a': Agent, size: nat, data: Data, h: History)
    requires AgentOk(c, a, data, h) && a.ship.phase.Collecting? && a.channel != []
    requires a' == a.(channel := a.channel[1..], ship := Ship.Receive(a.ship, c.lim, a.channel[0], size))
    ensures AgentOk(c, a', data, h)
  {
    RecvQueue(c, a, a', size);
    Requeue(c, a, a', data, h);
  }

  lemma TimerAgent(c: Config, a: Agent, a': Agent, data: Data, h: History)
    requires AgentOk(c, a, data, h) && a.ship.phase.Collecting? && a' == a.(ship := Ship.TimerFires(a.ship))
    ensures AgentOk(c, a', data, h)
  {
    assert Queue(a') == Queue(a);
    Requeue(c, a, a', data, h);
  }

  /** A settled batch: its entries leave the head of the queue for the history. */
  lemma PostKeeps(c: Config, s: Sys, v: Ship.Verdict)
    requires Inv(c, s) && Enabled(c, s, Post(v))
    ensures Inv(c, Next(c, s, Post(v)))
  {
    var a, h := s.agent.value, s.past;
    var batch := a.ship.batch;
    if v.Abandoned? {
      var a' := a.(ship := Ship.Resume(a.ship, c.lim));
      AbandonAgent(c, a, a', s.data, h);
      Assemble(c, s, a', h);
      assert Next(c, s, Post(v)) == s.(agent := Some(a'), past := h);
    } else {
      var a' := a.(ship := Ship.Settle(a.ship));
      var h' := if v.Accepted? then h.(accepted := h.accepted + batch) else h.(refused := h.refused + batch);
      BatchSettles(h, h', batch, v);
      PostAgent(c, a, a', s.data, h, h');
      TrueConcat(h.accepted, batch, s.data);
      TrueConcat(h.refused, batch, s.data);
      Assemble(c, s, a', h');
      assert Next(c, s, Post(v)) == s.(agent := Some(a'), past := h');
    }
  }

  /** Giving a batch up is harmless after the stop: no post succeeds any more. */
  lemma AbandonAgent(c: Config, a: Agent, a': Agent, data: Data, h: History)
    requires AgentOk(c, a, data, h) && a.cancelled && a' == a.(ship := Ship.Resume(a.ship, c.lim))
    ensures AgentOk(c, a', data, h)
  {
    Ship.ResumeValid(a.ship, c.lim);
    assert Queue(a) == a.ship.batch + Queue(a');
    TrueTail(a.ship.batch, Queue(a'), data);
  }

  lemma PostAgent(c: Config, a: Agent, a': Agent, data: Data, h: History, h': History)
    requires AgentOk(c, a, data, h) && !a.cancelled && a' == a.(ship := Ship.Settle(a.ship)) && a.ship.phase.Posting?
    requires Settles(h, h', a.ship.batch)
    ensures AgentOk(c, a', data, h') && AllTrue(a.ship.batch, data)
  {
    assert Queue(a) == a.ship.batch + Queue(a');
    PosGrows(a.positions, data, data, h, h');
    if a.snapshot.Some? { PosGrows(a.snapshot.value, data, data, h, h'); }
    TrueTail(a.ship.batch, Queue(a'), data);
    SettleFlow(a, a', h, h');
    SettleAcks(h, h', a.ship.batch, Queue(a'), data);
  }

  lemma TrueTail(head: seq<Entry>, rest: seq<Entry>, data: Data)
    requires AllTrue(head + rest, data)
    ensures AllTrue(head, data) && AllTrue(rest, data)
  {
    var q := head + rest;
    forall k | 0 <= k < |head| ensures head[k].inode in data && Truthful(head[k], data[head[k].inode]) {
      assert q[k] == head[k];
    }
    forall k | 0 <= k < |rest| ensures rest[k].inode in data && Truthful(rest[k], data[rest[k].inode]) {
      assert q[|head| + k] == rest[k];
    }
  }

  lemma TrueConcat(a: seq<Entry>, b: seq<Entry>, data: Data)
    requires AllTrue(a, data) && AllTrue(b, data)
    ensures AllTrue(a + b, data)
  {
  }

  lemma BatchSettles(h: History, h': History, batch: seq<Entry>, v: Ship.Verdict)
    requires v.Accepted? ==> h' == h.(accepted := h.accepted + batch)
    requires v.Refused? ==> h' == h.(refused := h.refused + batch)
    requires !v.Abandoned?
    ensures Settles(h, h', batch)
  {
    forall i, b | 0 <= b && Covers(batch, i, b) ensures Behind(h', i, b) {
      CoversSplit(h.accepted, batch, i, b);
      CoversSplit(h.refused, batch, i, b);
    }
  }

  lemma SettleFlow(a: Agent, a': Agent, h: History, h': History)
    requires FlowOk(a, h) && Settles(h, h', a.ship.batch) && Queue(a) == a.ship.batch + Queue(a')
    requires a'.files == a.files && a'.reading == a.reading
    ensures FlowOk(a', h')
  {
    var head, rest := a.ship.batch, Queue(a');
    SettleOrdered(h, h', head, rest);
    forall p | p in a.files ensures BehindOrQueued(h', rest, a.files[p].inode, a.files[p].offset) {
      SettleHead(h, h', head, rest, a.files[p].inode, a.files[p].offset);
    }
    if a.reading.Some? {
      SettleHead(h, h', head, rest, a.reading.value.file.inode, a.reading.value.file.offset);
    }
  }

  lemma SettleAcks(h: History, h': History, head: seq<Entry>, rest: seq<Entry>, data: Data)
    requires Settles(h, h', head) && Ordered(h, head + rest) && AllTrue(head, data)
    ensures AcksOk(head, data, h')
  {
    forall k | 0 <= k < |head|
      ensures head[k].inode in data && head[k].hi <= |data[head[k].inode]|
      ensures AllBehind(h', head[k].inode, head[k].hi)
    {
      SettledPrefix(h, h', head, rest, k);
    }
  }

  lemma AckAgent(c: Config, a: Agent, a': Agent, data: Data, h: History)
    requires AgentOk(c, a, data, h) && 0 !in data && a.ship.acking != [] && a.ship.phase.Acking?
    requires var e := a.ship.acking[0];
             a' == a.(positions := SetPos(a.positions, e.path, Position(e.inode, e.hi)),
               ship := Ship.AckOne(a.ship, c.lim))
    ensures AgentOk(c, a', data, h)
  {
    var e := a.ship.acking[0];
    SetPosOk(a.positions, e.path, Position(e.inode, e.hi), data, h);
    AckQueue(c, a);
    assert Queue(a') == Queue(a);
    Requeue(c, a, a', data, h);
  }

  /** Entries move along and acks into the positions; the history stays. */
  lemma ShipKeeps(c: Config, s: Sys, step: Step)
    requires Inv(c, s) && Enabled(c, s, step) && (step.Recv? || step.Timer? || step.Ack?)
    ensures Inv(c, Next(c, s, step))
  {
    var a := s.agent.value;
    var a' := AgentNext(c, s, a, step);
    if step.Recv? { RecvAgent(c, a, a', step.size, s.data, s.past); }
    else if step.Timer? { TimerAgent(c, a, a', s.data, s.past); }
    else { AckAgent(c, a, a', s.data, s.past); }
    Assemble(c, s, a', s.past);
    assert Next(c, s, step) == s.(agent := Some(a'), past := s.past);
  }

  lemma StartKeeps(c: Config, s: Sys)
    requires Inv(c, s) && Enabled(c, s, Start)
    ensures Inv(c, Next(c, s, Start))
  {
    var a := Agent(s.now, false, s.saved, None, map[], None, [], Ship.NewShip());
    assert Queue(a) == [];
    assert AgentOk(c, a, s.data, s.past);
    Assemble(c, s, a, s.past);
    assert Next(c, s, Start) == s.(agent := Some(a), past := s.past);
  }

  lemma MemoryKeeps(c: Config, s: Sys, a': Agent)
    requires Inv(c, s) && s.agent.Some?
    requires MemoryOnly(s.agent.value, a')
    ensures Inv(c, s.(agent := Some(a')))
  {
    MemoryAgent(c, s.agent.value, a', s.data, s.past);
    Assemble(c, s, a', s.past);
    assert s.(agent := Some(a')) == s.(agent := Some(a'), past := s.past);
  }

  /** Cancel, marks of gone files, and marshalling. */
  ghost predicate MemoryOnly(a: Agent, a': Agent) {
    && a' == a.(cancelled := a'.cancelled, files := a'.files, snapshot := a'.snapshot)
    && (!a'.cancelled ==> !a.cancelled)
    && (a'.snapshot == a.snapshot || a'.snapshot == Some(a.positions))
    && a'.files.Keys == a.files.Keys && forall p :: p in a.files ==>
         a'.files[p] == a.files[p].(gone := a'.files[p].gone)
  }

  lemma MemoryStepKeeps(c: Config, s: Sys, step: Step)
    requires Inv(c, s) && Enabled(c, s, step) && (step.Scan? || step.Unmatch? || step.Cancel? || step.Marshal?)
    ensures Inv(c, Next(c, s, step))
  {
    var a' := AgentNext(c, s, s.agent.value, step);
    if step.Scan? || step.Unmatch? { MarkIsMemory(c, s, s.agent.value, step); }
    MemoryKeeps(c, s, a');
    assert Next(c, s, step) == s.(agent := Some(a'));
  }

  lemma MarkIsMemory(c: Config, s: Sys, a: Agent, step: Step)
    requires AgentEnabled(c, s, a, step) && (step.Scan? || step.Unmatch?)
    ensures MemoryOnly(a, AgentNext(c, s, a, step))
  {
    assert a.files[step.path := a.files[step.path].(gone := true)].Keys == a.files.Keys;
  }

  lemma MemoryAgent(c: Config, a: Agent, a': Agent, data: Data, h: History)
    requires AgentOk(c, a, data, h)
    requires MemoryOnly(a, a')
    ensures AgentOk(c, a', data, h)
  {
    assert Queue(a') == Queue(a);
    if !a'.cancelled { assert FlowOk(a', h); }
  }

  lemma OtherKeeps(c: Config, s: Sys, step: Step)
    requires Inv(c, s) && Enabled(c, s, step)
    requires step.Rename? || step.Unlink? || step.Tick? || step.Crash? || step.Write?
    ensures Inv(c, Next(c, s, step))
  {
    if step.Write? {
      var a := s.agent.value;
      var a' := a.(snapshot := None);
      assert Queue(a') == Queue(a);
      assert AgentOk(c, a', s.data, s.past);
    }
  }

  lemma ReadingKeeps(c: Config, s: Sys, step: Step)
    requires Inv(c, s) && Enabled(c, s, step) && (step.Begin? || step.Cut? || step.End?)
    ensures Inv(c, Next(c, s, step))
  {
    if step.Begin? { BeginKeeps(c, s, step.path); }
    else if step.Cut? { CutKeeps(c, s); }
    else { EndKeeps(c, s); }
  }

  lemma StepKeeps(c: Config, s: Sys, step: Step)
    requires Inv(c, s) && Enabled(c, s, step)
    ensures Inv(c, Next(c, s, step))
  {
    if step.Append? || step.Create? { WriterKeeps(c, s, step); }
    else if step.Open? { OpenKeeps(c, s, step.path); }
    else if step.Begin? || step.Cut? || step.End? { ReadingKeeps(c, s, step); }
    else if step.Post? { PostKeeps(c, s, step.verdict); }
    else if step.Recv? || step.Timer? || step.Ack? { ShipKeeps(c, s, step); }
    else if step.Start? { StartKeeps(c, s); }
    else if step.Scan? || step.Unmatch? || step.Cancel? || step.Marshal? { MemoryStepKeeps(c, s, step); }
    else { OtherKeeps(c, s, step); }
  }

  lemma {:induction false} RunKeeps(c: Config, states: seq<Sys>, steps: seq<Step>, k: nat)
    requires IsRun(c, states, steps) && Inv(c, states[0]) && k <= |steps|
    ensures Inv(c, states[k])
  {
    if k > 0 {
      RunKeeps(c, states, steps, k - 1);
      StepKeeps(c, states[k - 1], steps[k - 1]);
    }
  }

  // ---- the main results, for every run from a fresh installation ----

  lemma InitInv(c: Config, s: Sys)
    requires Init(s) && c.lim.lines >= 1
    ensures Inv(c, s)
  {
  }

  /**
   Wherever a run stands: if a position is (inode, off), in memory or in the
   state file, every byte of that inode below off was accepted by the server,
   refused for good, blank, there when the file was first opened, or passed
   over by an opening that took a known file for a new one. What the server got
   is what the files hold at the places the entries name.
   */
  lemma PositionsCoverOnlySettledBytes(c: Config, states: seq<Sys>, steps: seq<Step>, k: nat)
    requires IsRun(c, states, steps) && Init(states[0]) && c.lim.lines >= 1 && k <= |steps|
    ensures var s := states[k];
            && (forall p, b :: p in s.saved && 0 <= b < s.saved[p].offset ==>
                  Done(s.past, s.saved[p].inode, b) || Within(s.past.passed, s.saved[p].inode, b))
            && (s.agent.Some? ==>
                  var pos := s.agent.value.positions;
                  forall p, b :: p in pos && 0 <= b < pos[p].offset ==>
                    Done(s.past, pos[p].inode, b) || Within(s.past.passed, pos[p].inode, b))
            && (forall i, b :: Within(s.past.skipped, i, b) ==> i in s.seen && b < s.seen[i])
            && AllTrue(s.past.accepted, s.data) && AllTrue(s.past.refused, s.data) && AllBlank(s.past.blanks, s.data)
  {
    InitInv(c, states[0]);
    RunKeeps(c, states, steps, k);
    var s := states[k];
    SettledBelow(s.saved, s.data, s.past);
    if s.agent.Some? { SettledBelow(s.agent.value.positions, s.data, s.past); }
  }

  lemma SettledBelow(m: PosMap, data: Data, h: History)
    requires PosOk(m, data, h)
    ensures forall p, b :: p in m && 0 <= b < m[p].offset ==> Done(h, m[p].inode, b) || Within(h.passed, m[p].inode, b)
  {
    forall p, b | p in m && 0 <= b < m[p].offset ensures Done(h, m[p].inode, b) || Within(h.passed, m[p].inode, b) {
      assert Behind(h, m[p].inode, b);
    }
  }

  /**
   A step passes bytes over if and only if it opens, in the first two seconds
   of the agent, a path without a position whose file had been opened before.
   */
  lemma PassesOverIff(c: Config, s: Sys, step: Step)
    requires Enabled(c, s, step)
    ensures Next(c, s, step).past.passed != s.past.passed <==>
            step.Open? && TakesForNew(s, s.agent.value, step.path) && s.dir[step.path] in s.seen
  {
    if step.Open? {
      assert |Next(c, s, step).past.passed| == |s.past.passed| || TakesForNew(s, s.agent.value, step.path);
    }
  }

  /**
   While the agent runs, every byte of a followed file is settled, was passed
   over, is on its way in the queue, or still to be read; so of a file read to
   its end with nothing on the way, every byte was settled or passed over.
   */
  lemma EveryByteIsAccounted(c: Config, states: seq<Sys>, steps: seq<Step>, k: nat, p: string)
    requires IsRun(c, states, steps) && Init(states[0]) && c.lim.lines >= 1 && k <= |steps|
    requires states[k].agent.Some? && !states[k].agent.value.cancelled
    requires states[k].agent.value.reading.None? && p in states[k].agent.value.files
    ensures var s := states[k];
            var a := s.agent.value;
            var tf := a.files[p];
            && tf.inode in s.data && InStep(tf, s.data[tf.inode])
            && (forall b :: 0 <= b < |s.data[tf.inode]| ==>
                  || Done(s.past, tf.inode, b) || Within(s.past.passed, tf.inode, b)
                  || Covers(Queue(a), tf.inode, b) || tf.offset <= b)
            && (Queue(a) == [] && tf.partial == [] && tf.pos == |s.data[tf.inode]| ==>
                  forall b :: 0 <= b < |s.data[tf.inode]| ==>
                    Done(s.past, tf.inode, b) || Within(s.past.passed, tf.inode, b))
  {
    InitInv(c, states[0]);
    RunKeeps(c, states, steps, k);
    var a := states[k].agent.value;
    assert BehindOrQueued(states[k].past, Queue(a), a.files[p].inode, a.files[p].offset);
  }

  /**
   When a gone file is drained and dropped while another file is at its path,
   that successor is then opened at byte 0 (or where it was itself delivered
   to), and nothing of it is passed over, however young the agent is.
   */
  lemma SuccessorFromStart(c: Config, states: seq<Sys>, steps: seq<Step>, k: nat)
    requires IsRun(c, states, steps) && Init(states[0]) && c.lim.lines >= 1 && k < |steps| && steps[k] == End
    requires Dropped(states[k]).Some?
    ensures var p := Dropped(states[k]).value;
            var pos := states[k].agent.value.positions;
            p in pos && OpensWithoutSkipping(states[k + 1], p, pos[p])
  {
    InitInv(c, states[0]);
    RunKeeps(c, states, steps, k);
  }

  /** The path whose file this end of a round drops, when another file is there. */
  function Dropped(s: Sys): Option<string> {
    if s.agent.Some? && s.agent.value.reading.Some? then
      var r := s.agent.value.reading.value;
      if EndRead(r, s.now).closed && r.path in s.dir && s.dir[r.path] in s.data then Some(r.path) else None
    else None
  }

  ghost predicate OpensWithoutSkipping(s: Sys, p: string, pos: Position) {
    && s.agent.Some? && p in s.dir && s.dir[p] in s.data && p !in s.agent.value.files
    && var s' := OpenFile(s, s.agent.value, p);
    && s'.past == s.past && s'.agent.value.files[p].inode == s.dir[p]
    && s'.agent.value.files[p].offset == if pos.inode == s.dir[p] then pos.offset else 0
  }

  // ---- once a position is saved, nothing of that file is passed over ----

  /** Memory, a save in progress and the state file all have a position for p. */
  ghost predicate Remembered(s: Sys, p: string) {
    && p in s.saved
    && (s.agent.Some? ==>
          p in s.agent.value.positions && (s.agent.value.snapshot.Some? ==> p in s.agent.value.snapshot.value))
  }

  /** The inode is at p and at no other watched path. */
  ghost predicate StaysAt(c: Config, s: Sys, p: string, i: nat) {
    p in s.dir && p in c.watched && forall q :: q in c.watched && q in s.dir ==> (s.dir[q] == i <==> q == p)
  }

  lemma WithinAppend(spans: seq<Span>, x: Span, i: nat, b: nat)
    requires x.inode != i
    ensures Within(spans + [x], i, b) <==> Within(spans, i, b)
  {
    if Within(spans, i, b) { WithinGrows(spans, spans + [x], i, b); }
  }

  lemma StepRemembers(c: Config, s: Sys, step: Step, p: string, i: nat)
    requires Enabled(c, s, step) && Remembered(s, p) && StaysAt(c, s, p, i)
    ensures Remembered(Next(c, s, step), p)
  {
    if step.Open? {
      OpenRemembers(s, step.path, p);
    } else if step.Cut? {
      CutRemembers(s, p);
    } else if step.End? {
      EndRemembers(s, p);
    } else if step.Post? {
      PostRemembers(c, s, step.verdict, p);
    } else if !step.Write? && s.agent.Some? {
      MemoryRemembers(c, s, step, p);
    }
  }

  lemma OpenRemembers(s: Sys, q: string, p: string)
    requires s.agent.Some? && Remembered(s, p) && q in s.dir && s.dir[q] in s.data
    ensures Remembered(OpenFile(s, s.agent.value, q), p)
  {
  }

  lemma CutRemembers(s: Sys, p: string)
    requires s.agent.Some? && Remembered(s, p) && s.agent.value.reading.Some? && HasLine(s.agent.value.reading.value)
    ensures Remembered(CutStep(s, s.agent.value), p)
  {
  }

  lemma EndRemembers(s: Sys, p: string)
    requires s.agent.Some? && Remembered(s, p) && s.agent.value.reading.Some? && p in s.dir
    ensures Remembered(EndStep(s, s.agent.value), p)
  {
    var a := s.agent.value;
    var r := a.reading.value;
    var a' := Finish(a, r.path, EndRead(r, s.now), r.path in s.dir);
    assert p in a'.positions && a'.snapshot == a.snapshot;
  }

  lemma PostRemembers(c: Config, s: Sys, v: Ship.Verdict, p: string)
    requires s.agent.Some? && Remembered(s, p)
    ensures Remembered(PostStep(c, s, s.agent.value, v), p)
  {
  }

  lemma MemoryRemembers(c: Config, s: Sys, step: Step, p: string)
    requires Enabled(c, s, step) && Remembered(s, p) && s.agent.Some?
    requires !step.Open? && !step.Cut? && !step.End? && !step.Post? && !step.Write?
    ensures Remembered(Next(c, s, step), p)
  {
  }

  lemma StepSkips(c: Config, s: Sys, step: Step, p: string, i: nat, b: nat)
    requires Enabled(c, s, step) && Remembered(s, p) && StaysAt(c, s, p, i)
    ensures Within(Next(c, s, step).past.skipped, i, b) <==> Within(s.past.skipped, i, b)
    ensures Within(Next(c, s, step).past.passed, i, b) <==> Within(s.past.passed, i, b)
  {
    if step.Open? && step.path != p {
      OpenElsewhere(s, step.path, i, b);
    }
  }

  /** Opening another file passes over nothing of this one. */
  lemma OpenElsewhere(s: Sys, q: string, i: nat, b: nat)
    requires s.agent.Some? && q in s.dir && s.dir[q] in s.data && s.dir[q] != i
    ensures var h := OpenFile(s, s.agent.value, q).past;
            && (Within(h.skipped, i, b) <==> Within(s.past.skipped, i, b))
            && (Within(h.passed, i, b) <==> Within(s.past.passed, i, b))
            && h == s.past.(skipped := h.skipped, passed := h.passed)
  {
    var span := Span(s.dir[q], 0, OpenFile(s, s.agent.value, q).agent.value.files[q].offset);
    WithinAppend(s.past.skipped, span, i, b);
    WithinAppend(s.past.passed, span, i, b);
  }

  lemma {:induction false} RunSkips(
    c: Config, states: seq<Sys>, steps: seq<Step>, j: nat, k: nat, p: string, i: nat, b: nat)
    requires IsRun(c, states, steps) && j <= k <= |steps| && Remembered(states[j], p)
    requires forall m :: j <= m <= k ==> StaysAt(c, states[m], p, i)
    ensures Remembered(states[k], p)
    ensures Within(states[k].past.skipped, i, b) <==> Within(states[j].past.skipped, i, b)
    ensures Within(states[k].past.passed, i, b) <==> Within(states[j].past.passed, i, b)
    decreases k - j
  {
    if j < k {
      RunSkips(c, states, steps, j, k - 1, p, i, b);
      StepRemembers(c, states[k - 1], steps[k - 1], p, i);
      StepSkips(c, states[k - 1], steps[k - 1], p, i, b);
    }
  }

  /**
   From the moment a position of a file is saved, over any number of crashes
   and restarts while the file keeps its path: whenever it has been read to its
   end and nothing is on the way, each of its bytes was accepted, refused for
   good or blank, except those passed over before that moment.
   */
  lemma DeliveredAcrossCrashes(c: Config, states: seq<Sys>, steps: seq<Step>, j: nat, k: nat, p: string, i: nat)
    requires IsRun(c, states, steps) && Init(states[0]) && c.lim.lines >= 1 && j <= k <= |steps|
    requires Remembered(states[j], p) && forall m :: j <= m <= k ==> StaysAt(c, states[m], p, i)
    requires states[k].agent.Some? && !states[k].agent.value.cancelled && states[k].agent.value.reading.None?
    requires var s := states[k]; var a := s.agent.value;
             && p in a.files && a.files[p].inode == i && i in s.data
             && Queue(a) == [] && a.files[p].partial == [] && a.files[p].pos == |s.data[i]|
    ensures var h := states[k].past;
            forall b :: 0 <= b < |states[k].data[i]| ==>
              || Covers(h.accepted, i, b) || Covers(h.refused, i, b) || Within(h.blanks, i, b)
              || Within(states[j].past.skipped, i, b) || Within(states[j].past.passed, i, b)
  {
    var h := states[k].past;
    EveryByteIsAccounted(c, states, steps, k, p);
    forall b | 0 <= b < |states[k].data[i]|
      ensures || Covers(h.accepted, i, b) || Covers(h.refused, i, b) || Within(h.blanks, i, b)
              || Within(states[j].past.skipped, i, b) || Within(states[j].past.passed, i, b)
    {
      assert Behind(h, i, b);
      RunSkips(c, states, steps, j, k, p, i, b);
    }
  }

  // ---- what a crash does lose: a file rotated away with unsettled bytes ----

  /** No watched path holds the inode and nothing of it is in the agent's hands. */
  ghost predicate Orphaned(c: Config, s: Sys, i: nat) {
    && Unbound(c, s, i)
    && (s.agent.Some? ==>
          var a := s.agent.value;
          && (forall p :: p in a.files ==> a.files[p].inode != i)
          && (a.reading.Some? ==> a.reading.value.file.inode != i)
          && NoneOf(Queue(a), i))
  }

  ghost predicate Unbound(c: Config, s: Sys, i: nat) {
    forall p :: p in c.watched && p in s.dir ==> s.dir[p] != i
  }

  ghost predicate NoneOf(es: seq<Entry>, i: nat) {
    forall k :: 0 <= k < |es| ==> es[k].inode != i
  }

  lemma NoneOfConcat(a: seq<Entry>, b: seq<Entry>, i: nat)
    ensures NoneOf(a + b, i) <==> NoneOf(a, i) && NoneOf(b, i)
  {
    if NoneOf(a + b, i) {
      forall k | 0 <= k < |a| ensures a[k].inode != i { assert (a + b)[k] == a[k]; }
      forall k | 0 <= k < |b| ensures b[k].inode != i { assert (a + b)[|a| + k] == b[k]; }
    }
  }

  lemma CoversNone(a: seq<Entry>, b: seq<Entry>, i: nat, x: nat)
    requires NoneOf(b, i)
    ensures Covers(a + b, i, x) <==> Covers(a, i, x)
  {
    CoversSplit(a, b, i, x);
  }

  lemma OrphanSent(c: Config, s: Sys, a: Agent, sent: seq<Entry>, j: nat, lo: nat, hi: nat, i: nat, b: nat)
    requires Orphaned(c, s.(agent := Some(a)), i) && j != i && NoneOf(sent, i)
    ensures Orphaned(c, Sent(s, a, sent, j, lo, hi), i)
    ensures Done(Sent(s, a, sent, j, lo, hi).past, i, b) <==> Done(s.past, i, b)
  {
    var a' := Sent(s, a, sent, j, lo, hi).agent.value;
    assert Queue(a') == Queue(a) + sent;
    NoneOfConcat(Queue(a), sent, i);
    WithinAppend(s.past.blanks, Span(j, lo, hi), i, b);
  }

  lemma OrphanCut(c: Config, s: Sys, i: nat, b: nat)
    requires Enabled(c, s, Cut) && Orphaned(c, s, i)
    ensures Orphaned(c, Next(c, s, Cut), i)
    ensures Done(Next(c, s, Cut).past, i, b) <==> Done(s.past, i, b)
  {
    var a := s.agent.value;
    var r := a.reading.value;
    var (r', sent) := CutLine(r);
    assert Queue(a.(reading := Some(r'))) == Queue(a);
    OrphanSent(c, s, a.(reading := Some(r')), sent, r.file.inode, r.file.offset, r'.file.offset, i, b);
  }

  lemma OrphanEnd(c: Config, s: Sys, i: nat, b: nat)
    requires Enabled(c, s, End) && Orphaned(c, s, i)
    ensures Orphaned(c, Next(c, s, End), i)
    ensures Done(Next(c, s, End).past, i, b) <==> Done(s.past, i, b)
  {
    var a := s.agent.value;
    var r := a.reading.value;
    var f := EndRead(r, s.now);
    var a' := Finish(a, r.path, f, r.path in s.dir);
    assert Queue(a') == Queue(a);
    OrphanSent(c, s, a', f.sent, r.file.inode, r.file.offset, f.file.offset, i, b);
  }

  lemma OrphanShip(c: Config, s: Sys, step: Step, i: nat)
    requires Inv(c, s) && Enabled(c, s, step) && Orphaned(c, s, i) && (step.Recv? || step.Timer? || step.Ack?)
    ensures Orphaned(c, Next(c, s, step), i) && Next(c, s, step).past == s.past
  {
    var a := s.agent.value;
    var a' := AgentNext(c, s, a, step);
    assert Next(c, s, step) == s.(agent := Some(a'));
    assert Queue(a') == Queue(a) by {
      if step.Recv? { RecvQueue(c, a, a', step.size); }
      if step.Ack? { AckQueue(c, a); }
    }
  }

  lemma OrphanPost(c: Config, s: Sys, v: Ship.Verdict, i: nat, b: nat)
    requires Inv(c, s) && Enabled(c, s, Post(v)) && Orphaned(c, s, i)
    ensures Orphaned(c, Next(c, s, Post(v)), i)
    ensures Done(Next(c, s, Post(v)).past, i, b) <==> Done(s.past, i, b)
  {
    var a := s.agent.value;
    var a' := a.(ship := if v.Abandoned? then Ship.Resume(a.ship, c.lim) else Ship.Settle(a.ship));
    PostQueue(c, a, a', v);
    NoneOfConcat(a.ship.batch, Queue(a'), i);
    OrphanBatch(c, s, v, i, b);
    assert Next(c, s, Post(v)).agent == Some(a');
  }

  lemma PostQueue(c: Config, a: Agent, a': Agent, v: Ship.Verdict)
    requires Ship.Valid(a.ship, c.lim)
    requires a' == a.(ship := if v.Abandoned? then Ship.Resume(a.ship, c.lim) else Ship.Settle(a.ship))
    ensures Queue(a) == a.ship.batch + Queue(a')
  {
    Ship.ResumeValid(a.ship, c.lim);
    assert Ship.Pending(a.ship) == a.ship.batch + Ship.Pending(a'.ship);
  }

  lemma OrphanBatch(c: Config, s: Sys, v: Ship.Verdict, i: nat, b: nat)
    requires s.agent.Some? && NoneOf(s.agent.value.ship.batch, i)
    ensures Done(PostStep(c, s, s.agent.value, v).past, i, b) <==> Done(s.past, i, b)
  {
    CoversNone(s.past.accepted, s.agent.value.ship.batch, i, b);
    CoversNone(s.past.refused, s.agent.value.ship.batch, i, b);
  }

  lemma OrphanStep(c: Config, s: Sys, step: Step, i: nat, b: nat)
    requires Inv(c, s) && Enabled(c, s, step) && Orphaned(c, s, i) && Unbound(c, Next(c, s, step), i)
    ensures Orphaned(c, Next(c, s, step), i)
    ensures Done(Next(c, s, step).past, i, b) <==> Done(s.past, i, b)
  {
    if step.Cut? { OrphanCut(c, s, i, b); }
    else if step.End? { OrphanEnd(c, s, i, b); }
    else if step.Recv? || step.Timer? || step.Ack? { OrphanShip(c, s, step, i); }
    else if step.Post? { OrphanPost(c, s, step.verdict, i, b); }
    else if step.Open? { OrphanOpen(c, s, step.path, i, b); }
    else { OrphanRest(c, s, step, i); }
  }

  lemma OrphanOpen(c: Config, s: Sys, p: string, i: nat, b: nat)
    requires Enabled(c, s, Open(p)) && Orphaned(c, s, i)
    ensures Orphaned(c, Next(c, s, Open(p)), i)
    ensures Done(Next(c, s, Open(p)).past, i, b) <==> Done(s.past, i, b)
  {
    var s' := OpenFile(s, s.agent.value, p);
    assert Queue(s'.agent.value) == Queue(s.agent.value);
    OpenElsewhere(s, p, i, b);
  }

  lemma OrphanRest(c: Config, s: Sys, step: Step, i: nat)
    requires Enabled(c, s, step) && Orphaned(c, s, i) && Unbound(c, Next(c, s, step), i)
    requires !step.Cut? && !step.End? && !step.Recv? && !step.Timer? && !step.Ack? && !step.Post? && !step.Open?
    ensures Orphaned(c, Next(c, s, step), i) && Next(c, s, step).past == s.past
  {
    var s' := Next(c, s, step);
    if step.Start? {
      assert Queue(s'.agent.value) == [];
    } else if s.agent.Some? && s'.agent.Some? {
      assert Queue(s'.agent.value) == Queue(s.agent.value);
    }
  }

  /**
   Once no watched path holds an inode and the agent holds nothing of it, no
   continuation settles another of its bytes unless it is moved back to a
   watched path. After a crash the second half is always so.
   */
  lemma {:induction false} OrphansStayLost(c: Config, states: seq<Sys>, steps: seq<Step>, k: nat, i: nat, b: nat)
    requires IsRun(c, states, steps) && Inv(c, states[0]) && k <= |steps| && Orphaned(c, states[0], i)
    requires forall m :: 0 <= m <= k ==> Unbound(c, states[m], i)
    ensures Orphaned(c, states[k], i)
    ensures Done(states[k].past, i, b) <==> Done(states[0].past, i, b)
  {
    if k > 0 {
      OrphansStayLost(c, states, steps, k - 1, i, b);
      OrphanNext(c, states, steps, k - 1, i, b);
    }
  }

  lemma OrphanNext(c: Config, states: seq<Sys>, steps: seq<Step>, m: nat, i: nat, b: nat)
    requires IsRun(c, states, steps) && Inv(c, states[0]) && m < |steps| && Orphaned(c, states[m], i)
    requires Unbound(c, states[m + 1], i)
    ensures Orphaned(c, states[m + 1], i) && (Done(states[m + 1].past, i, b) <==> Done(states[m].past, i, b))
  {
    RunKeeps(c, states, steps, m);
    OrphanStep(c, states[m], steps[m], i, b);
  }
}
