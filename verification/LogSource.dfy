/**
 FileSource of internal/logs/tail.go as an object: its methods update the
 followed files and the positions in place, and are proved to do what the
 value-level rounds and openings of LogTail and LogDelivery say.
 */
module LogSource {
  import opened Prelude
  import opened LogLines
  import opened LogTail
  import opened LogPositions
  import opened LogDelivery

  /** Milliseconds between two glob searches. */
  const DISCOVER_EVERY: nat := 10000

  /** What stat says of a path. */
  datatype Stat = Stat(inode: nat, size: nat)

  function Mark(tf: Tailed): Tailed {
    tf.(gone := true)
  }

  /** Nothing is at the path, or another file. */
  predicate Left(p: string, tf: Tailed, dir: map<string, Stat>) {
    p !in dir || dir[p].inode != tf.inode
  }

  /** A followed file after a scan: gone when its path is empty or holds another file. */
  function Scanned(p: string, tf: Tailed, dir: map<string, Stat>): Tailed {
    if p in dir && dir[p].inode == tf.inode then tf else Mark(tf)
  }

  /** A file just opened: followed from where it was delivered to, from its start, or from its end. */
  predicate OpenedAt(tf: Tailed, st: Stat, pos: Option<Position>, uptime: int) {
    var o := StartOffset(pos, st.inode, st.size, uptime);
    tf == Tailed(st.inode, o, o, [], None, false)
  }

  /** What was followed still is; what is new was found, and opened by the position it had. */
  ghost predicate OpenedFrom(
    were: map<string, Tailed>, files: map<string, Tailed>, found: seq<string>, dir: map<string, Stat>,
    pos: PosMap, uptime: int)
    requires forall p :: p in found ==> p in dir
  {
    && (forall p :: p in were ==> p in files && files[p] == were[p])
    && (forall p :: p in files && p !in were ==> p in found && OpenedAt(files[p], dir[p], PosOf(pos, p), uptime))
  }

  lemma OpensOne(
    were: map<string, Tailed>, files: map<string, Tailed>, p: string, tf: Tailed,
    found: seq<string>, dir: map<string, Stat>, pos: PosMap, uptime: int)
    requires (forall q :: q in found ==> q in dir) && OpenedFrom(were, files, found, dir, pos, uptime)
    requires p !in files && p in found && OpenedAt(tf, dir[p], PosOf(pos, p), uptime)
    ensures OpenedFrom(were, files[p := tf], found, dir, pos, uptime) && |files[p := tf]| == |files| + 1
  {
    assert files[p := tf].Keys == files.Keys + {p};
  }

  class FileSource {
    const positions: Positions
    const started: int
    var files: map<string, Tailed>
    var lastFound: Option<int>

    constructor (positions: Positions, started: int)
      ensures this.positions == positions && this.started == started && files == map[] && lastFound == None
    {
      this.positions := positions;
      this.started := started;
      files := map[];
      lastFound := None;
    }

    method Open(p: string, st: Stat, now: int)
      requires positions.Valid()
      modifies this`files, positions`files, positions`dirty
      ensures positions.Valid()
      ensures var o := StartOffset(PosOf(old(positions.files), p), st.inode, st.size, now - started);
              && files == old(files)[p := Tailed(st.inode, o, o, [], None, false)]
              && positions.files == SetPos(old(positions.files), p, Position(st.inode, o))
    {
      var pos := positions.File(p);
      var offset := 0;
      if pos.Some? && pos.value.inode == st.inode && pos.value.offset <= st.size {
        offset := pos.value.offset;
      } else if pos.Some? || now - started > 2 * INTERVAL {
        offset := 0;
      } else {
        offset := st.size;
      }
      files := files[p := Tailed(st.inode, offset, offset, [], None, false)];
      positions.SetFile(p, Position(st.inode, offset));
    }

    /** The first half of discover: the found files that are new are opened, up to the limit. */
    method OpenFound(found: seq<string>, dir: map<string, Stat>, now: int)
      requires positions.Valid() && forall p :: p in found ==> p in dir
      modifies this`files, positions`files, positions`dirty
      ensures positions.Valid()
      ensures forall p :: p in old(files) ==> p in files && files[p] == old(files[p])
      ensures forall p :: p in files && p !in old(files) ==>
                p in found && OpenedAt(files[p], dir[p], PosOf(old(positions.files), p), now - started)
      ensures |old(files)| <= MAX_FILES ==> |files| <= MAX_FILES
      ensures |files| < MAX_FILES ==> forall p :: p in found ==> p in files
    {
      ghost var were, pos0 := files, positions.files;
      var i := 0;
      while i < |found|
        invariant 0 <= i <= |found| && positions.Valid()
        invariant OpenedFrom(were, files, found, dir, pos0, now - started)
        invariant forall p :: p !in files ==> PosOf(positions.files, p) == PosOf(pos0, p)
        invariant |were| <= MAX_FILES ==> |files| <= MAX_FILES
        invariant |files| < MAX_FILES ==> forall j :: 0 <= j < i ==> found[j] in files
      {
        var p := found[i];
        if p !in files && |files| < MAX_FILES {
          ghost var before := files;
          Open(p, dir[p], now);
          OpensOne(were, before, p, files[p], found, dir, pos0, now - started);
        }
        i := i + 1;
      }
    }

    /** discover: opens the found files that are new, marks the followed ones that were not found. */
    method Discover(found: seq<string>, dir: map<string, Stat>, now: int)
      requires positions.Valid() && forall p :: p in found ==> p in dir
      modifies this`files, positions`files, positions`dirty
      ensures positions.Valid()
      ensures forall p :: p in old(files) ==>
                p in files && files[p] == old(files[p]).(gone := old(files[p]).gone || p !in found)
      ensures forall p :: p in files && p !in old(files) ==>
                p in found && OpenedAt(files[p], dir[p], PosOf(old(positions.files), p), now - started)
      ensures |old(files)| <= MAX_FILES ==> |files| <= MAX_FILES
      ensures |files| < MAX_FILES ==> forall p :: p in found ==> p in files
    {
      OpenFound(found, dir, now);
      ghost var all := files;
      files := map p | p in files :: if p in found then files[p] else Mark(files[p]);
      assert files.Keys == all.Keys;
    }

    /** scan: discovery when it is due, then every followed path is checked. */
    method Scan(found: seq<string>, dir: map<string, Stat>, now: int)
      requires positions.Valid() && forall p :: p in found ==> p in dir
      modifies this`files, this`lastFound, positions`files, positions`dirty
      ensures positions.Valid()
      ensures old(lastFound).Some? && now - old(lastFound).value < DISCOVER_EVERY ==>
                lastFound == old(lastFound) && positions.files == old(positions.files) && files.Keys == old(files).Keys
                && forall p :: p in files ==>
                     files[p] == old(files[p]).(gone := old(files[p]).gone || Left(p, old(files[p]), dir))
      ensures !(old(lastFound).Some? && now - old(lastFound).value < DISCOVER_EVERY) ==> lastFound == Some(now)
      ensures !(old(lastFound).Some? && now - old(lastFound).value < DISCOVER_EVERY) ==>
                forall p :: p in old(files) ==>
                  p in files && files[p] ==
                    old(files[p]).(gone := old(files[p]).gone || p !in found || Left(p, old(files[p]), dir))
      ensures forall p :: p in files && p !in old(files) ==>
                p in found && OpenedAt(files[p], dir[p], PosOf(old(positions.files), p), now - started)
    {
      if lastFound.None? || now - lastFound.value >= DISCOVER_EVERY {
        lastFound := Some(now);
        Discover(found, dir, now);
      }
      files := map p | p in files :: Scanned(p, files[p], dir);
    }

    /**
     read: one round on a followed file whose bytes are `content`. The context
     is done after `room` sends; then the round breaks off there.
     */
    method Read(p: string, content: seq<Byte>, present: bool, now: int, room: nat) returns (sent: seq<Entry>, ok: bool)
      requires positions.Valid() && p in files
      modifies this, positions`files, positions`dirty
      ensures positions.Valid()
      ensures var f := ReadRound(p, old(files[p]), content, now);
              && (ok <==> |f.sent| <= room)
              && sent == (if ok then f.sent else f.sent[..room])
              && (ok && f.closed ==>
                    && files == old(files) - {p} && lastFound == None
                    && positions.files == if present then old(positions.files) else ForgetPos(old(positions.files), p))
              && (ok && !f.closed ==>
                    files == old(files)[p := f.file] && lastFound == old(lastFound)
                      && positions.files == old(positions.files))
              && (!ok ==> positions.files == old(positions.files))
    {
      var f;
      f, ok := ReadFile(p, files[p], content, now, room);
      sent := f.sent;
      if !ok {
        return;
      }
      if f.closed {
        files := files - {p};
        lastFound := None;
        if !present {
          positions.Forget(p);
        }
      } else {
        files := files[p := f.file];
      }
    }
  }

  /** read without its effect on the source: stat, one chunk, the line loop and what follows the last newline. */
  method ReadFile(p: string, file: Tailed, content: seq<Byte>, now: int, room: nat) returns (f: Finished, ok: bool)
    ensures ok <==> |ReadRound(p, file, content, now).sent| <= room
    ensures ok ==> f == ReadRound(p, file, content, now)
    ensures !ok ==> f.sent == ReadRound(p, file, content, now).sent[..room]
  {
    var tf := file;
    if |content| < tf.offset + |tf.partial| {
      tf := tf.(offset := 0, partial := [], pos := 0);
    }
    var n: nat := if tf.pos <= |content| then Min(READ_CHUNK, |content| - tf.pos) else 0;
    var data := tf.partial + if tf.pos <= |content| then content[tf.pos..tf.pos + n] else [];
    tf := tf.(partial := [], pos := tf.pos + n);
    assert Reading(p, tf, data, n) == BeginRead(p, file, content);
    var r, sent;
    r, sent, ok := CutAll(Reading(p, tf, data, n), room);
    if !ok {
      f := Finished(tf, sent, false);
      return;
    }
    var last := ReadRest(r, now);
    ok := |sent + last.sent| <= room;
    f := last.(sent := if ok then sent + last.sent else sent);
  }

  /** The switch of read over what follows the last newline, and the closing of a drained file. */
  method ReadRest(r: Reading, now: int) returns (f: Finished)
    ensures f == EndRead(r, now) && |f.sent| <= 1
  {
    var data, tf, sent := r.data, r.file, [];
    if |data| >= MAX_LINE_BYTES {
      var (emitted, e) := Emit(r.path, tf, data, |data|);
      tf, sent := emitted, e;
    } else if |data| > 0 && (tf.gone || (tf.partAt.Some? && now - tf.partAt.value > PARTIAL_FLUSH)) {
      var (emitted, e) := Emit(r.path, tf, data, |data|);
      tf, sent := emitted, e;
      tf := tf.(partAt := None);
    } else if |data| > 0 {
      tf := tf.(partial := data);
      if tf.partAt.None? {
        tf := tf.(partAt := Some(now));
      }
    } else {
      tf := tf.(partAt := None);
    }
    f := Finished(tf, sent, tf.gone && r.n < READ_CHUNK && |tf.partial| == 0);
  }

  /** The line loop of read, with the context done after `room` sends. */
  method CutAll(start: Reading, room: nat) returns (r: Reading, sent: seq<Entry>, ok: bool)
    ensures ok <==> |CutLines(start).1| <= room
    ensures ok ==> (r, sent) == CutLines(start)
    ensures !ok ==> sent == CutLines(start).1[..room]
  {
    r, sent := start, [];
    ghost var all := CutLines(start);
    while HasLine(r)
      invariant |sent| <= room
      invariant Remains(all, r, sent)
      decreases |r.data|
    {
      var i := IndexNewline(r.data);
      var (tf, e) := Emit(r.path, r.file, r.data[..i], i + 1);
      var next := r.(file := tf, data := r.data[i + 1..]);
      assert CutLine(r) == (next, e);
      CutOne(all, r, sent);
      if |sent| + |e| > room {
        return r, sent, false;
      }
      r, sent := next, sent + e;
    }
    assert CutLines(r) == (r, []);
    assert sent + [] == sent;
    ok := true;
  }

  /** What is sent so far and what is still to cut make up the whole round. */
  ghost predicate Remains(all: (Reading, seq<Entry>), r: Reading, sent: seq<Entry>) {
    all.0 == CutLines(r).0 && all.1 == sent + CutLines(r).1
  }

  lemma CutOne(all: (Reading, seq<Entry>), r: Reading, sent: seq<Entry>)
    requires HasLine(r) && Remains(all, r, sent)
    ensures var (next, e) := CutLine(r);
            && Remains(all, next, sent + e) && |e| <= 1
            && sent == all.1[..|sent|] && |sent + e| <= |all.1|
  {
    var (next, e) := CutLine(r);
    assert sent + (e + CutLines(next).1) == sent + e + CutLines(next).1;
  }

  // ---- the step system does the same, one step at a time ----

  /** Cut steps until no complete line is in hand. */
  function CutSteps(s: Sys): (s': Sys)
    requires s.agent.Some? && s.agent.value.reading.Some?
    ensures s'.agent.Some? && s'.agent.value.reading.Some?
    decreases |s.agent.value.reading.value.data|
  {
    if HasLine(s.agent.value.reading.value) then CutSteps(CutStep(s, s.agent.value)) else s
  }

  /** Only the process and the history are other ones. */
  predicate Moved(s: Sys, s': Sys, a': Agent) {
    s' == s.(agent := Some(a'), past := s'.past)
  }

  lemma CutStepIs(s: Sys, a: Agent)
    requires s.agent == Some(a) && a.reading.Some? && HasLine(a.reading.value)
    ensures var (r, e) := CutLine(a.reading.value);
            Moved(s, CutStep(s, a), a.(reading := Some(r), channel := a.channel + e))
  {
  }

  /** What is in hand and in the channel after the lines were cut. */
  function Emptied(a: Agent): Agent
    requires a.reading.Some?
  {
    var (r, es) := CutLines(a.reading.value);
    a.(reading := Some(r), channel := a.channel + es)
  }

  lemma EmptiedNext(a: Agent)
    requires a.reading.Some?
    ensures HasLine(a.reading.value) ==>
              var (r, e) := CutLine(a.reading.value);
              Emptied(a) == Emptied(a.(reading := Some(r), channel := a.channel + e))
    ensures !HasLine(a.reading.value) ==> Emptied(a) == a
  {
    if HasLine(a.reading.value) {
      var (r, e) := CutLine(a.reading.value);
      assert a.channel + (e + CutLines(r).1) == a.channel + e + CutLines(r).1;
    } else {
      assert a.channel + [] == a.channel;
    }
  }

  lemma {:induction false} CutStepsAre(s: Sys, a: Agent)
    requires s.agent == Some(a) && a.reading.Some?
    ensures Moved(s, CutSteps(s), Emptied(a))
    decreases |a.reading.value.data|
  {
    EmptiedNext(a);
    if HasLine(a.reading.value) {
      CutStepIs(s, a);
      CutStepsAre(CutStep(s, a), CutStep(s, a).agent.value);
    }
  }

  /** The steps of one round on p, with nothing in between. */
  function RoundSteps(c: Config, s: Sys, p: string): Sys
    requires Enabled(c, s, Begin(p))
  {
    var s1 := CutSteps(Next(c, s, Begin(p)));
    EndStep(s1, s1.agent.value)
  }

  /** They leave the files, the positions and the channel as one call of read does. */
  lemma RoundIsSteps(c: Config, s: Sys, p: string)
    requires Enabled(c, s, Begin(p))
    ensures var a := s.agent.value;
            var f := ReadRound(p, a.files[p], s.data[a.files[p].inode], s.now);
            Moved(s, RoundSteps(c, s, p),
              a.(files := if f.closed then a.files - {p} else a.files[p := f.file],
                 channel := a.channel + f.sent,
                 positions := if f.closed && p !in s.dir then ForgetPos(a.positions, p) else a.positions))
  {
    var a := s.agent.value;
    var r := BeginRead(p, a.files[p], s.data[a.files[p].inode]);
    var a1 := a.(reading := Some(r));
    assert Next(c, s, Begin(p)) == s.(agent := Some(a1));
    CutStepsAre(s.(agent := Some(a1)), a1);
    CutLinesPath(r);
    var (r', es) := CutLines(r);
    assert a.channel + es + EndRead(r', s.now).sent == a.channel + (es + EndRead(r', s.now).sent);
  }

  lemma {:induction false} CutLinesPath(r: Reading)
    ensures CutLines(r).0.path == r.path
    decreases |r.data|
  {
    if HasLine(r) { CutLinesPath(CutLine(r).0); }
  }

  /** A scan step marks what scan marks. */
  lemma ScanIsStep(c: Config, s: Sys, p: string, dir: map<string, Stat>)
    requires Enabled(c, s, LogDelivery.Scan(p)) && (p in dir <==> p in s.dir) && (p in dir ==> dir[p].inode == s.dir[p])
    ensures var a := s.agent.value;
            Next(c, s, LogDelivery.Scan(p)) == s.(agent := Some(a.(files := a.files[p := Scanned(p, a.files[p], dir)])))
  {
    var a := s.agent.value;
    assert a.files[p := a.files[p]] == a.files;
  }

  /** And an unmatch step marks what discovery marks. */
  lemma UnmatchIsStep(c: Config, s: Sys, p: string)
    requires Enabled(c, s, Unmatch(p))
    ensures var a := s.agent.value;
            Next(c, s, Unmatch(p)) == s.(agent := Some(a.(files := a.files[p := Mark(a.files[p])])))
  {
  }

  /** The state in which the path was deleted and the next scan has noticed. */
  function Deleted(c: Config, s: Sys, p: string): Sys
    requires s.agent.Some? && s.agent.value.reading.None? && p in s.agent.value.files && p in s.dir
  {
    Next(c, Next(c, s, Unlink(p)), LogDelivery.Scan(p))
  }

  lemma DeletedIs(c: Config, s: Sys, p: string)
    requires s.agent.Some? && s.agent.value.reading.None? && p in s.agent.value.files && p in s.dir
    ensures var a := s.agent.value;
            Deleted(c, s, p) == s.(dir := s.dir - {p}, agent := Some(a.(files := a.files[p := Mark(a.files[p])])))
  {
    var s1 := Next(c, s, Unlink(p));
    assert s1 == s.(dir := s.dir - {p});
    ScanIsStep(c, s1, p, map[]);
  }

  lemma DrainedWhenGone(p: string, tf: Tailed, content: seq<Byte>, now: int)
    requires InStep(tf, content) && |content| - tf.pos < READ_CHUNK
    ensures var f := ReadRound(p, Mark(tf), content, now);
            f.closed && Covered(f.sent, p, tf.inode, tf.offset, |content|, content)
  {
    RoundCovers(p, Mark(tf), content, now);
    var f := ReadRound(p, Mark(tf), content, now);
    assert f.file.offset == f.file.pos == |content|;
  }

  /**
   A followed file that is deleted is read to its end in one more round, if
   less than a chunk is left: everything in it goes to the channel, and then
   the file is dropped and its position forgotten.
   */
  lemma DeletedIsDrained(c: Config, s: Sys, p: string) returns (sent: seq<Entry>)
    requires s.agent.Some? && s.agent.value.reading.None? && p in s.agent.value.files && p in s.dir
    requires var tf := s.agent.value.files[p];
             tf.inode in s.data && InStep(tf, s.data[tf.inode]) && |s.data[tf.inode]| - tf.pos < READ_CHUNK
    ensures var a, tf := s.agent.value, s.agent.value.files[p];
            var content := s.data[tf.inode];
            && Enabled(c, Deleted(c, s, p), Begin(p))
            && var s' := RoundSteps(c, Deleted(c, s, p), p);
            && s'.agent.Some? && s'.agent.value == a.(files := a.files - {p}, positions := ForgetPos(a.positions, p),
                                                      channel := a.channel + sent)
            && Covered(sent, p, tf.inode, tf.offset, |content|, content)
  {
    var a := s.agent.value;
    var tf := a.files[p];
    var content := s.data[tf.inode];
    var gone := a.(files := a.files[p := Mark(tf)]);
    DeletedIs(c, s, p);
    RoundIsSteps(c, Deleted(c, s, p), p);
    DrainedWhenGone(p, tf, content, s.now);
    sent := ReadRound(p, Mark(tf), content, s.now).sent;
    assert gone.files - {p} == a.files - {p};
  }
}
