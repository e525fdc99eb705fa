/**
 The log delivery protocol as a step system: writers append and rotate files,
 the tailer cuts them into entries, a channel feeds the shipper, settled
 batches are acknowledged into the positions, the positions are saved, and the
 agent may stop or crash between any two steps and start again
 (internal/logs/tail.go, ship.go, positions.go, pipeline.go).

 Files are append-only and inodes are not reused; encoding an entry does not
 fail; no post ends a batch once the agent was told to stop.
 */
module LogDelivery {
  import opened Prelude
  import opened LogLines
  import opened LogTail
  import opened LogPositions
  import Ship = LogShip

  /** Milliseconds between two passes of the tailer. */
  const INTERVAL: nat := 1000
  const CHANNEL_CAPACITY: nat := 1000
  const MAX_FILES: nat := 500

  type Data = map<nat, seq<Byte>>

  /** A stretch of bytes of an inode. */
  datatype Span = Span(inode: nat, lo: nat, hi: nat)

  /**
   What became of bytes so far: sent and taken, sent and refused for good,
   blank, or present when a file was first opened and therefore not to be sent.
   `passed` are stretches passed over by an opening that took a file for new
   although it had been opened before.
   */
  datatype History = History(
    accepted: seq<Entry>, refused: seq<Entry>, blanks: seq<Span>, skipped: seq<Span>, passed: seq<Span>)

  /** A running agent process. `snapshot` is a save between marshalling and renaming. */
  datatype Agent = Agent(
    started: int, cancelled: bool, positions: PosMap, snapshot: Option<PosMap>,
    files: map<string, Tailed>, reading: Option<Reading>, channel: seq<Entry>, ship: Ship.Ship<Entry>)

  /** `seen` is the size each inode had when an agent opened it for the first time. */
  datatype Sys = Sys(
    dir: map<string, nat>, data: Data, now: int, saved: PosMap, agent: Option<Agent>, past: History,
    seen: map<nat, nat>)

  /** Batch limits and the paths the specs match (allowed, not excluded, not a rotated name). */
  datatype Config = Config(lim: Ship.Limits, watched: set<string>)

  datatype Step =
    // the writers of the log files, and time
    | Append(inode: nat, bytes: seq<Byte>)
    | Create(path: string, inode: nat)
    | Rename(from: string, to: string)
    | Unlink(path: string)
    | Tick(ms: nat)
    // the process
    | Start
    | Crash
    | Cancel
    // the tailer
    | Scan(path: string)
    | Unmatch(path: string)
    | Open(path: string)
    | Begin(path: string)
    | Cut
    | End
    // the shipper
    | Recv(size: nat)
    | Timer
    | Post(verdict: Ship.Verdict)
    | Ack
    // the saver
    | Marshal
    | Write(ok: bool)

  /** Where reading starts: at the delivered position, at 0, or at the end. */
  function StartOffset(pos: Option<Position>, inode: nat, size: nat, uptime: int): nat {
    if pos.Some? && pos.value.inode == inode && pos.value.offset <= size then pos.value.offset
    else if pos.Some? || uptime > 2 * INTERVAL then 0
    else size
  }

  function PosOf(m: PosMap, path: string): Option<Position> {
    if path in m then Some(m[path]) else None
  }

  predicate Enabled(c: Config, s: Sys, step: Step) {
    match step
    case Append(i, _) => i in s.data
    case Create(p, i) => p !in s.dir && i !in s.data && i > 0
    case Rename(p, q) => p in s.dir && p != q
    case Unlink(p) => p in s.dir
    case Tick(_) => true
    case Start => s.agent.None?
    case _ => s.agent.Some? && AgentEnabled(c, s, s.agent.value, step)
  }

  predicate AgentEnabled(c: Config, s: Sys, a: Agent, step: Step) {
    match step
    case Crash => true
    case Cancel => true
    case Scan(p) => a.reading.None? && p in a.files
    case Unmatch(p) => a.reading.None? && p in a.files && (p !in s.dir || p !in c.watched)
    case Open(p) => a.reading.None? && p in s.dir && s.dir[p] in s.data && p in c.watched && p !in a.files
      && |a.files| < MAX_FILES
    case Begin(p) => a.reading.None? && p in a.files && a.files[p].inode in s.data
    case Cut => a.reading.Some? && HasLine(a.reading.value) && |a.channel| < CHANNEL_CAPACITY
    case End => a.reading.Some? && !HasLine(a.reading.value) && |a.channel| < CHANNEL_CAPACITY
    case Recv(_) => a.ship.phase.Collecting? && a.channel != []
    case Timer => a.ship.phase.Collecting?
    case Post(v) => a.ship.phase.Posting? && (a.cancelled <==> v.Abandoned?)
    case Ack => a.ship.phase.Acking? && a.ship.acking != []
    case Marshal => a.snapshot.None?
    case Write(_) => a.snapshot.Some?
    case _ => false
  }

  function Next(c: Config, s: Sys, step: Step): Sys
    requires Enabled(c, s, step)
  {
    match step
    case Append(i, bytes) => s.(data := s.data[i := s.data[i] + bytes])
    case Create(p, i) => s.(dir := s.dir[p := i], data := s.data[i := []])
    case Rename(p, q) => s.(dir := (s.dir - {p})[q := s.dir[p]])
    case Unlink(p) => s.(dir := s.dir - {p})
    case Tick(ms) => s.(now := s.now + ms)
    case Start => s.(agent := Some(Agent(s.now, false, s.saved, None, map[], None, [], Ship.NewShip())))
    case Crash => s.(agent := None)
    case Open(p) => OpenFile(s, s.agent.value, p)
    case Cut => CutStep(s, s.agent.value)
    case End => EndStep(s, s.agent.value)
    case Post(v) => PostStep(c, s, s.agent.value, v)
    case Write(ok) =>
      var a := s.agent.value;
      s.(saved := if ok then a.snapshot.value else s.saved, agent := Some(a.(snapshot := None)))
    case _ => s.(agent := Some(AgentNext(c, s, s.agent.value, step)))
  }

  /** Steps that change nothing but the process's own memory. */
  function AgentNext(c: Config, s: Sys, a: Agent, step: Step): Agent
    requires AgentEnabled(c, s, a, step)
  {
    match step
    case Cancel => a.(cancelled := true)
    case Scan(p) =>
      if p !in s.dir || s.dir[p] != a.files[p].inode then a.(files := a.files[p := a.files[p].(gone := true)]) else a
    case Unmatch(p) => a.(files := a.files[p := a.files[p].(gone := true)])
    case Begin(p) => a.(reading := Some(BeginRead(p, a.files[p], s.data[a.files[p].inode])))
    case Recv(size) => a.(channel := a.channel[1..], ship := Ship.Receive(a.ship, c.lim, a.channel[0], size))
    case Timer => a.(ship := Ship.TimerFires(a.ship))
    case Ack =>
      var e := a.ship.acking[0];
      a.(positions := SetPos(a.positions, e.path, Position(e.inode, e.hi)), ship := Ship.AckOne(a.ship, c.lim))
    case Marshal => a.(snapshot := Some(a.positions))
    case _ => a
  }

  /** First sight at startup: no position, and the agent is young. */
  predicate TakesForNew(s: Sys, a: Agent, p: string) {
    p !in a.positions && s.now - a.started <= 2 * INTERVAL
  }

  /** The bytes of the span are not sent: rightly so when the file is new, otherwise they are passed over. */
  function PassTo(h: History, span: Span, known: bool): History {
    if known then h.(passed := h.passed + [span]) else h.(skipped := h.skipped + [span])
  }

  function OpenFile(s: Sys, a: Agent, p: string): Sys
    requires p in s.dir && s.dir[p] in s.data
  {
    var i := s.dir[p];
    var size := |s.data[i]|;
    var pos := PosOf(a.positions, p);
    var o := StartOffset(pos, i, size, s.now - a.started);
    s.(agent := Some(a.(files := a.files[p := Tailed(i, o, o, [], None, false)],
                        positions := SetPos(a.positions, p, Position(i, o)))),
       past := if TakesForNew(s, a, p) then PassTo(s.past, Span(i, 0, o), i in s.seen) else s.past,
       seen := if i in s.seen then s.seen else s.seen[i := size])
  }

  /** The entries of a piece go to the channel; a blank piece is settled as it is cut. */
  function Sent(s: Sys, a: Agent, sent: seq<Entry>, inode: nat, lo: nat, hi: nat): Sys {
    s.(agent := Some(a.(channel := a.channel + sent)),
       past := if sent == [] && lo < hi then s.past.(blanks := s.past.blanks + [Span(inode, lo, hi)]) else s.past)
  }

  function CutStep(s: Sys, a: Agent): Sys
    requires a.reading.Some? && HasLine(a.reading.value)
  {
    var r := a.reading.value;
    var (r', sent) := CutLine(r);
    Sent(s, a.(reading := Some(r')), sent, r.file.inode, r.file.offset, r'.file.offset)
  }

  function EndStep(s: Sys, a: Agent): Sys
    requires a.reading.Some?
  {
    var r := a.reading.value;
    var f := EndRead(r, s.now);
    Sent(s, Finish(a, r.path, f, r.path in s.dir), f.sent, r.file.inode, r.file.offset, f.file.offset)
  }

  /** A closed file is dropped, and forgotten when nothing is at its path any more. */
  function Finish(a: Agent, path: string, f: Finished, present: bool): Agent {
    if !f.closed then a.(reading := None, files := a.files[path := f.file])
    else a.(reading := None, files := a.files - {path},
            positions := if present then a.positions else ForgetPos(a.positions, path))
  }

  function PostStep(c: Config, s: Sys, a: Agent, v: Ship.Verdict): Sys {
    match v
    case Abandoned => s.(agent := Some(a.(ship := Ship.Resume(a.ship, c.lim))))
    case Accepted =>
      s.(agent := Some(a.(ship := Ship.Settle(a.ship))), past := s.past.(accepted := s.past.accepted + a.ship.batch))
    case Refused =>
      s.(agent := Some(a.(ship := Ship.Settle(a.ship))), past := s.past.(refused := s.past.refused + a.ship.batch))
  }

  predicate Init(s: Sys) {
    && s.agent.None? && s.saved == map[] && s.past == History([], [], [], [], []) && s.seen == map[]
    && 0 !in s.data && forall p :: p in s.dir ==> s.dir[p] in s.data
  }

  ghost predicate IsRun(c: Config, states: seq<Sys>, steps: seq<Step>) {
    && |states| == |steps| + 1
    && forall k :: 0 <= k < |steps| ==> Enabled(c, states[k], steps[k]) && states[k + 1] == Next(c, states[k], steps[k])
  }

  // ---- what it means for bytes to be settled ----

  ghost predicate Covers(es: seq<Entry>, i: nat, b: nat) {
    exists k :: 0 <= k < |es| && es[k].inode == i && es[k].lo <= b < es[k].hi
  }

  ghost predicate Within(spans: seq<Span>, i: nat, b: nat) {
    exists k :: 0 <= k < |spans| && spans[k].inode == i && spans[k].lo <= b < spans[k].hi
  }

  /** The byte was accepted, refused for good, blank, or there before the file was first opened. */
  ghost predicate Done(h: History, i: nat, b: nat) {
    Covers(h.accepted, i, b) || Covers(h.refused, i, b) || Within(h.blanks, i, b) || Within(h.skipped, i, b)
  }

  /** The byte will not be waited for: it is done, or was passed over. */
  ghost predicate Behind(h: History, i: nat, b: nat) {
    Done(h, i, b) || Within(h.passed, i, b)
  }

  ghost predicate AllBehind(h: History, i: nat, n: nat) {
    forall b :: 0 <= b < n ==> Behind(h, i, b)
  }

  /** Every byte below n is behind or on its way in q. */
  ghost predicate BehindOrQueued(h: History, q: seq<Entry>, i: nat, n: nat) {
    forall b :: 0 <= b < n ==> Behind(h, i, b) || Covers(q, i, b)
  }

  /** First in, first out: what precedes an entry in its file is behind or ahead of it in the queue. */
  ghost predicate Ordered(h: History, q: seq<Entry>) {
    forall k :: 0 <= k < |q| ==> BehindOrQueued(h, q[..k], q[k].inode, q[k].lo)
  }

  /** Entries cut and not yet settled. */
  function Queue(a: Agent): seq<Entry> {
    Ship.Pending(a.ship) + a.channel
  }

  // ---- the invariant ----

  ghost predicate PosOk(m: PosMap, data: Data, h: History) {
    forall p :: p in m ==>
      m[p].inode in data && m[p].offset <= |data[m[p].inode]| && AllBehind(h, m[p].inode, m[p].offset)
  }

  ghost predicate AllTrue(es: seq<Entry>, data: Data) {
    forall k :: 0 <= k < |es| ==> es[k].inode in data && Truthful(es[k], data[es[k].inode])
  }

  ghost predicate AllBlank(spans: seq<Span>, data: Data) {
    forall k :: 0 <= k < |spans| ==>
      && spans[k].inode in data && spans[k].lo < spans[k].hi <= |data[spans[k].inode]|
      && Message(LineOf(data[spans[k].inode][spans[k].lo..spans[k].hi])) == None
  }

  ghost predicate FilesOk(files: map<string, Tailed>, data: Data) {
    forall p :: p in files ==> files[p].inode in data && InStep(files[p], data[files[p].inode])
  }

  ghost predicate ReadingOk(a: Agent, data: Data) {
    a.reading.Some? ==>
      var r := a.reading.value;
      r.path in a.files && r.file.inode in data && Holds(r, data[r.file.inode])
  }

  /** Acks that are due move positions only over bytes that are behind. */
  ghost predicate AcksOk(acking: seq<Entry>, data: Data, h: History) {
    forall k :: 0 <= k < |acking| ==>
      && acking[k].inode in data && acking[k].hi <= |data[acking[k].inode]|
      && AllBehind(h, acking[k].inode, acking[k].hi)
  }

  /** Until the agent is told to stop: nothing read is forgotten before it is behind. */
  ghost predicate FlowOk(a: Agent, h: History) {
    && Ordered(h, Queue(a))
    && (forall p :: p in a.files ==> BehindOrQueued(h, Queue(a), a.files[p].inode, a.files[p].offset))
    && (a.reading.Some? ==> BehindOrQueued(h, Queue(a), a.reading.value.file.inode, a.reading.value.file.offset))
  }

  ghost predicate AgentOk(c: Config, a: Agent, data: Data, h: History) {
    && PosOk(a.positions, data, h)
    && (a.snapshot.Some? ==> PosOk(a.snapshot.value, data, h))
    && (forall p :: p in a.files ==> p in a.positions)
    && FilesOk(a.files, data)
    && ReadingOk(a, data)
    && AllTrue(Queue(a), data)
    && AcksOk(a.ship.acking, data, h)
    && Ship.Valid(a.ship, c.lim)
    && (!a.cancelled ==> FlowOk(a, h))
  }

  ghost predicate HistoryOk(data: Data, h: History) {
    AllTrue(h.accepted, data) && AllTrue(h.refused, data) && AllBlank(h.blanks, data)
  }

  /** Bytes that need not be sent were there when the file was opened for the first time. */
  ghost predicate SkippedOk(skipped: seq<Span>, seen: map<nat, nat>) {
    forall k :: 0 <= k < |skipped| ==> skipped[k].inode in seen && skipped[k].hi <= seen[skipped[k].inode]
  }

  ghost predicate Inv(c: Config, s: Sys) {
    && c.lim.lines >= 1
    && SkippedOk(s.past.skipped, s.seen)
    && 0 !in s.data && (forall p :: p in s.dir ==> s.dir[p] in s.data)
    && PosOk(s.saved, s.data, s.past)
    && HistoryOk(s.data, s.past)
    && (s.agent.Some? ==> AgentOk(c, s.agent.value, s.data, s.past))
  }
}
