/**
 How positions move (SetFile at opening and at acknowledgement, Forget and Save
 in internal/logs): where each is after any run, and how far behind the reader
 it can be once nothing is on its way.
 */
module LogProgress {
  import opened Prelude
  import opened LogLines
  import opened LogTail
  import opened LogPositions
  import opened LogDelivery
  import opened LogSafety
  import Once = LogOnce
  import Ship = LogShip

  // ---- every step puts positions where the source does ----

  function PositionAt(s: Sys, p: string): Option<Position> {
    if s.agent.Some? then PosOf(s.agent.value.positions, p) else None
  }

  /** The end of this round drops the file followed at p, and nothing is at p. */
  predicate Forgets(s: Sys, p: string) {
    && s.agent.Some? && s.agent.value.reading.Some?
    && var r := s.agent.value.reading.value;
    r.path == p && p !in s.dir && EndRead(r, s.now).closed
  }

  /** The entry whose ack is called next. */
  function Acked(s: Sys): Option<Entry> {
    if s.agent.Some? && s.agent.value.ship.acking != [] then Some(s.agent.value.ship.acking[0]) else None
  }

  /** The steps that set or drop the position of p: an opening, an ack, a forgetting, a start and a crash. */
  predicate Touches(s: Sys, step: Step, p: string) {
    match step
    case Open(q) => q == p
    case Ack => Acked(s).Some? && Acked(s).value.path == p
    case End => Forgets(s, p)
    case Start => true
    case Crash => true
    case _ => false
  }

  /** Where such a step puts it: where reading starts, the end of the entry, nowhere, or as it was saved. */
  function Put(s: Sys, step: Step, p: string): Option<Position> {
    match step
    case Open(_) =>
      if s.agent.Some? && p in s.dir && s.dir[p] in s.data then
        var i := s.dir[p];
        Some(Position(i, StartOffset(PositionAt(s, p), i, |s.data[i]|, s.now - s.agent.value.started)))
      else None
    case Ack => if Acked(s).Some? then Some(Position(Acked(s).value.inode, Acked(s).value.hi)) else None
    case Start => PosOf(s.saved, p)
    case _ => None
  }

  lemma OpenPuts(c: Config, s: Sys, q: string, p: string)
    requires Inv(c, s) && Enabled(c, s, Open(q))
    ensures PositionAt(Next(c, s, Open(q)), p) == if p == q then Put(s, Open(q), p) else PositionAt(s, p)
  {
    assert Next(c, s, Open(q)) == OpenFile(s, s.agent.value, q);
  }

  /** An acknowledgement moves the position of its path to the end of its entry, and no other. */
  lemma AckPuts(c: Config, s: Sys, p: string)
    requires Inv(c, s) && Enabled(c, s, Ack)
    ensures var e := s.agent.value.ship.acking[0];
            PositionAt(Next(c, s, Ack), p) ==
            if p == e.path then Some(Position(e.inode, e.hi)) else PositionAt(s, p)
  {
    var a := s.agent.value;
    assert a.ship.acking[0].inode in s.data;
    assert Next(c, s, Ack) == s.(agent := Some(AgentNext(c, s, a, Ack)));
  }

  lemma EndPuts(c: Config, s: Sys, p: string)
    requires Enabled(c, s, End)
    ensures PositionAt(Next(c, s, End), p) == if Forgets(s, p) then None else PositionAt(s, p)
  {
    var a := s.agent.value;
    assert Next(c, s, End) == EndStep(s, a);
  }

  lemma OthersPut(c: Config, s: Sys, step: Step, p: string)
    requires Enabled(c, s, step) && !step.Open? && !step.Ack? && !step.End? && !step.Start? && !step.Crash?
    ensures PositionAt(Next(c, s, step), p) == PositionAt(s, p)
  {
  }

  lemma StepPuts(c: Config, s: Sys, step: Step, p: string)
    requires Inv(c, s) && Enabled(c, s, step)
    ensures PositionAt(Next(c, s, step), p) == if Touches(s, step, p) then Put(s, step, p) else PositionAt(s, p)
  {
    if step.Open? { OpenPuts(c, s, step.path, p); }
    else if step.Ack? { AckPuts(c, s, p); }
    else if step.End? { EndPuts(c, s, p); }
    else if !step.Start? && !step.Crash? { OthersPut(c, s, step, p); }
  }

  /** The m-th step puts the position of p where it should be. */
  ghost predicate PutsAsSaid(states: seq<Sys>, steps: seq<Step>, m: nat, p: string)
    requires m < |steps| < |states|
  {
    PositionAt(states[m + 1], p) ==
    if Touches(states[m], steps[m], p) then Put(states[m], steps[m], p) else PositionAt(states[m], p)
  }

  lemma {:induction false} LastTouch(states: seq<Sys>, steps: seq<Step>, m: nat, k: nat, p: string)
    requires m < k <= |steps| < |states| && forall n :: m <= n < k ==> PutsAsSaid(states, steps, n, p)
    requires Touches(states[m], steps[m], p) && forall n :: m < n < k ==> !Touches(states[n], steps[n], p)
    ensures PositionAt(states[k], p) == Put(states[m], steps[m], p)
    decreases k
  {
    assert PutsAsSaid(states, steps, k - 1, p);
    if k > m + 1 { LastTouch(states, steps, m, k - 1, p); }
  }

  lemma PutsNext(c: Config, states: seq<Sys>, steps: seq<Step>, m: nat, p: string)
    requires IsRun(c, states, steps) && Inv(c, states[0]) && m < |steps|
    ensures PutsAsSaid(states, steps, m, p)
  {
    RunKeeps(c, states, steps, m);
    StepPuts(c, states[m], steps[m], p);
  }

  /** In every run a position is where the last step that touched it put it. */
  lemma LastTouchDecides(c: Config, states: seq<Sys>, steps: seq<Step>, m: nat, k: nat, p: string)
    requires IsRun(c, states, steps) && Init(states[0]) && c.lim.lines >= 1 && m < k <= |steps|
    requires Touches(states[m], steps[m], p) && forall n :: m < n < k ==> !Touches(states[n], steps[n], p)
    ensures PositionAt(states[k], p) == Put(states[m], steps[m], p)
  {
    InitInv(c, states[0]);
    forall n | m <= n < k ensures PutsAsSaid(states, steps, n, p) { PutsNext(c, states, steps, n, p); }
    LastTouch(states, steps, m, k, p);
  }

  // ---- a save writes what was marshalled ----

  ghost predicate Marshalled(s: Sys, m: PosMap) {
    s.agent.Some? && s.agent.value.snapshot == Some(m)
  }

  lemma SnapshotStays(c: Config, s: Sys, step: Step, m: PosMap)
    requires Enabled(c, s, step) && Marshalled(s, m) && step != Crash && !step.Write?
    ensures Marshalled(Next(c, s, step), m) && Next(c, s, step).saved == s.saved
  {
    var a, s' := s.agent.value, Next(c, s, step);
    if step.Open? { assert s' == OpenFile(s, a, step.path); }
    else if step.Cut? { assert s' == CutStep(s, a); }
    else if step.End? { assert s' == EndStep(s, a); }
    else if step.Post? { assert s' == PostStep(c, s, a, step.verdict); }
  }

  lemma MarshalTakes(c: Config, s: Sys)
    requires Enabled(c, s, Marshal)
    ensures Marshalled(Next(c, s, Marshal), s.agent.value.positions)
  {
  }

  lemma WriteSaves(c: Config, s: Sys, ok: bool, m: PosMap)
    requires Enabled(c, s, Write(ok)) && Marshalled(s, m)
    ensures Next(c, s, Write(ok)).saved == if ok then m else s.saved
  {
  }

  lemma {:induction false} StaysMarshalled(c: Config, states: seq<Sys>, steps: seq<Step>, m: nat, k: nat)
    requires IsRun(c, states, steps) && m < k <= |steps| && steps[m] == Marshal
    requires forall n :: m < n < k ==> steps[n] != Crash && !steps[n].Write?
    ensures Marshalled(states[k], states[m].agent.value.positions)
    decreases k
  {
    if k == m + 1 {
      MarshalTakes(c, states[m]);
    } else {
      StaysMarshalled(c, states, steps, m, k - 1);
      SnapshotStays(c, states[k - 1], steps[k - 1], states[m].agent.value.positions);
    }
  }

  /** What a save puts on disk are the positions as they were marshalled; a failed one changes nothing there. */
  lemma SaveWrites(c: Config, states: seq<Sys>, steps: seq<Step>, m: nat, k: nat)
    requires IsRun(c, states, steps) && m < k < |steps| && steps[m] == Marshal && steps[k].Write?
    requires forall n :: m < n < k ==> steps[n] != Crash && !steps[n].Write?
    ensures states[k + 1].saved == if steps[k].ok then states[m].agent.value.positions else states[k].saved
  {
    StaysMarshalled(c, states, steps, m, k);
    WriteSaves(c, states[k], steps[k].ok, states[m].agent.value.positions);
  }

  // ---- the history is what was posted ----

  /** The batch that this step settles with the verdict. */
  function BatchOf(s: Sys, step: Step, v: Ship.Verdict): seq<Entry> {
    if step == Post(v) && s.agent.Some? then s.agent.value.ship.batch else []
  }

  /** All batches of the first k steps that were settled with the verdict. */
  ghost function Posted(states: seq<Sys>, steps: seq<Step>, k: nat, v: Ship.Verdict): seq<Entry>
    requires k <= |steps| <= |states|
  {
    if k == 0 then [] else Posted(states, steps, k - 1, v) + BatchOf(states[k - 1], steps[k - 1], v)
  }

  lemma StepRecords(c: Config, s: Sys, step: Step)
    requires Enabled(c, s, step)
    ensures var h, h' := s.past, Next(c, s, step).past;
            && h'.accepted == h.accepted + BatchOf(s, step, Ship.Accepted)
            && h'.refused == h.refused + BatchOf(s, step, Ship.Refused)
  {
    if s.agent.Some? {
      var a, s' := s.agent.value, Next(c, s, step);
      if step.Open? { assert s' == OpenFile(s, a, step.path); }
      else if step.Cut? { assert s' == CutStep(s, a); }
      else if step.End? { assert s' == EndStep(s, a); }
      else if step.Post? { assert s' == PostStep(c, s, a, step.verdict); }
    }
  }

  /** In every run what was accepted and refused are the batches posted to that end, in order. */
  lemma {:induction false} HistoryIsPosts(c: Config, states: seq<Sys>, steps: seq<Step>, k: nat)
    requires IsRun(c, states, steps) && Init(states[0]) && k <= |steps|
    ensures states[k].past.accepted == Posted(states, steps, k, Ship.Accepted)
    ensures states[k].past.refused == Posted(states, steps, k, Ship.Refused)
  {
    if k > 0 {
      HistoryIsPosts(c, states, steps, k - 1);
      StepRecords(c, states[k - 1], steps[k - 1]);
    }
  }

  // ---- after the stop nothing is settled ----

  /** The agent was told to stop, and what was settled is as in h. */
  ghost predicate Stopped(s: Sys, h: History) {
    s.agent.Some? && s.agent.value.cancelled && s.past.accepted == h.accepted && s.past.refused == h.refused
  }

  lemma StopStays(c: Config, s: Sys, step: Step, h: History)
    requires Enabled(c, s, step) && Stopped(s, h) && step != Crash
    ensures Stopped(Next(c, s, step), h)
  {
    var a, s' := s.agent.value, Next(c, s, step);
    if step.Open? { assert s' == OpenFile(s, a, step.path); }
    else if step.Cut? { assert s' == CutStep(s, a); }
    else if step.End? { assert s' == EndStep(s, a); }
    else if step.Post? { assert s' == PostStep(c, s, a, step.verdict); }
  }

  lemma StopTakes(c: Config, s: Sys)
    requires Enabled(c, s, Cancel)
    ensures Stopped(Next(c, s, Cancel), s.past)
  {
  }

  /** In every run, from the stop to the end of the process no batch is accepted or refused any more. */
  lemma {:induction false} NothingSettlesAfterStop(c: Config, states: seq<Sys>, steps: seq<Step>, m: nat, k: nat)
    requires IsRun(c, states, steps) && m < k <= |steps| && steps[m] == Cancel
    requires forall n :: m < n < k ==> steps[n] != Crash
    ensures Stopped(states[k], states[m].past)
    decreases k
  {
    if k == m + 1 {
      StopTakes(c, states[m]);
    } else {
      NothingSettlesAfterStop(c, states, steps, m, k - 1);
      StopStays(c, states[k - 1], steps[k - 1], states[m].past);
    }
  }

  // ---- where a position will be when everything under way is acknowledged ----

  /** Entries to be acknowledged, in order. */
  function Trail(a: Agent): seq<Entry> {
    a.ship.acking + Queue(a)
  }

  /** The end of the last entry of p. */
  function LastOf(es: seq<Entry>, p: string): (r: Option<Position>)
    ensures r.Some? ==> exists k :: Ends(es, k, p, r.value)
    ensures r.None? ==> forall k, x :: !Ends(es, k, p, x)
  {
    if es == [] then None
    else
      var last := |es| - 1;
      if es[last].path == p then
        assert Ends(es, last, p, Position(es[last].inode, es[last].hi));
        Some(Position(es[last].inode, es[last].hi))
      else
        var r := LastOf(es[..last], p);
        assert r.Some? ==> forall k :: Ends(es[..last], k, p, r.value) ==> Ends(es, k, p, r.value);
        assert r.None? ==> forall k, x :: Ends(es, k, p, x) ==> Ends(es[..last], k, p, x);
        r
  }

  /** The k-th entry is of p and ends at x. */
  ghost predicate Ends(es: seq<Entry>, k: int, p: string, x: Position) {
    0 <= k < |es| && es[k].path == p && es[k].inode == x.inode && es[k].hi == x.offset
  }

  function Due(es: seq<Entry>, now: Option<Position>, p: string): Option<Position> {
    var last := LastOf(es, p);
    if last.Some? then last else now
  }

  /** x is the position of p, or will be when some entry is acknowledged. */
  ghost predicate IsMark(es: seq<Entry>, now: Option<Position>, p: string, x: Position) {
    now == Some(x) || exists k :: Ends(es, k, p, x)
  }

  /** The bytes were blank or passed over. */
  ghost predicate Idle(h: History, i: nat, lo: nat, hi: nat) {
    forall b :: lo <= b < hi ==> Within(h.blanks, i, b) || Within(h.passed, i, b)
  }

  /** Where a followed file was cut to, if p is followed. */
  function Followed(a: Agent, p: string): Option<Position> {
    if p in a.files then Some(Position(a.files[p].inode, Once.CutTo(a, p))) else None
  }

  /**
   Between where the position of p will come to rest and where its file was cut
   to there is nothing to send; if another file was followed since, or none is,
   no mark of p lies beyond anything to send either.
   */
  ghost predicate Rests(h: History, es: seq<Entry>, now: Option<Position>, cut: Option<Position>, p: string) {
    var due := Due(es, now, p);
    due.Some? ==>
      if cut.Some? && cut.value.inode == due.value.inode
      then Idle(h, due.value.inode, due.value.offset, cut.value.offset)
      else AllIdle(h, es, now, p, due.value)
  }

  ghost predicate AllIdle(h: History, es: seq<Entry>, now: Option<Position>, p: string, due: Position) {
    forall x :: IsMark(es, now, p, x) && x.inode == due.inode ==> Idle(h, due.inode, due.offset, x.offset)
  }

  /** No mark of the file in hand lies beyond what a short read has reached. */
  ghost predicate HandOk(a: Agent) {
    a.reading.Some? ==>
      var r := a.reading.value;
      && r.path in a.files && a.files[r.path].inode == r.file.inode
      && (r.n < READ_CHUNK ==> NoneBeyond(Trail(a), PosOf(a.positions, r.path), r.path, r.file.inode, r.file.pos))
  }

  ghost predicate NoneBeyond(es: seq<Entry>, now: Option<Position>, p: string, i: nat, n: nat) {
    forall x :: IsMark(es, now, p, x) && x.inode == i ==> x.offset <= n
  }

  ghost predicate AllKnown(a: Agent, seen: map<nat, nat>) {
    && (forall k :: 0 <= k < |Trail(a)| ==> Trail(a)[k].inode in seen)
    && (forall p :: p in a.files ==> a.files[p].inode in seen)
  }

  ghost predicate RestsAt(a: Agent, h: History, p: string) {
    Rests(h, Trail(a), PosOf(a.positions, p), Followed(a, p), p)
  }

  ghost predicate Settled(a: Agent, h: History, seen: map<nat, nat>) {
    HandOk(a) && AllKnown(a, seen) && forall p :: RestsAt(a, h, p)
  }

  /** Until the agent is told to stop. */
  ghost predicate Settling(s: Sys) {
    s.agent.Some? && !s.agent.value.cancelled ==> Settled(s.agent.value, s.past, s.seen)
  }

  // ---- on lists of entries ----

  lemma LastOfAppend(es: seq<Entry>, e: Entry, p: string)
    ensures LastOf(es + [e], p) == if e.path == p then Some(Position(e.inode, e.hi)) else LastOf(es, p)
  {
    assert (es + [e])[..|es|] == es;
  }

  lemma {:induction false} LastOfTail(e: Entry, rest: seq<Entry>, p: string)
    ensures LastOf([e] + rest, p) ==
            if LastOf(rest, p).Some? then LastOf(rest, p)
            else if e.path == p then Some(Position(e.inode, e.hi)) else None
    decreases |rest|
  {
    if rest == [] {
      assert [e] + rest == [e] && [e][..0] == [];
    } else {
      var n := |rest| - 1;
      LastOfTail(e, rest[..n], p);
      assert ([e] + rest)[..n + 1] == [e] + rest[..n];
    }
  }

  lemma MarkTail(e: Entry, rest: seq<Entry>, now: Option<Position>, p: string, x: Position)
    requires IsMark(rest, if e.path == p then Some(Position(e.inode, e.hi)) else now, p, x)
    ensures IsMark([e] + rest, now, p, x)
  {
    var es := [e] + rest;
    if k :| Ends(rest, k, p, x) {
      assert Ends(es, k + 1, p, x);
    } else if e.path == p {
      assert Ends(es, 0, p, x);
    }
  }

  lemma MarkFront(es: seq<Entry>, e: Entry, now: Option<Position>, p: string, x: Position)
    requires IsMark(es + [e], now, p, x)
    ensures IsMark(es, now, p, x) || (e.path == p && x == Position(e.inode, e.hi))
  {
    if now != Some(x) {
      var k :| Ends(es + [e], k, p, x);
      assert k < |es| ==> Ends(es, k, p, x);
    }
  }

  lemma IdleGrows(h: History, h': History, i: nat, lo: nat, hi: nat)
    requires Extends(h, h') && Idle(h, i, lo, hi)
    ensures Idle(h', i, lo, hi)
  {
    forall b | lo <= b < hi ensures Within(h'.blanks, i, b) || Within(h'.passed, i, b) {
      if Within(h.blanks, i, b) { WithinGrows(h.blanks, h'.blanks, i, b); }
      else { WithinGrows(h.passed, h'.passed, i, b); }
    }
  }

  // ---- how each kind of step leaves one path ----

  lemma RestsGrows(h: History, h': History, es: seq<Entry>, now: Option<Position>, cut: Option<Position>, p: string)
    requires Extends(h, h') && Rests(h, es, now, cut, p)
    ensures Rests(h', es, now, cut, p)
  {
    var due := Due(es, now, p);
    if due.Some? {
      if cut.Some? && cut.value.inode == due.value.inode {
        IdleGrows(h, h', due.value.inode, due.value.offset, cut.value.offset);
      } else {
        AllIdleGrows(h, h', es, now, p, due.value);
      }
    }
  }

  lemma AllIdleGrows(h: History, h': History, es: seq<Entry>, now: Option<Position>, p: string, due: Position)
    requires Extends(h, h') && AllIdle(h, es, now, p, due)
    ensures AllIdle(h', es, now, p, due)
  {
    forall x | IsMark(es, now, p, x) && x.inode == due.inode ensures Idle(h', due.inode, due.offset, x.offset) {
      IdleGrows(h, h', due.inode, due.offset, x.offset);
    }
  }

  /** The first entry is acknowledged. */
  lemma RestsAcked(h: History, e: Entry, rest: seq<Entry>, now: Option<Position>, cut: Option<Position>, p: string)
    requires Rests(h, [e] + rest, now, cut, p)
    ensures Rests(h, rest, if e.path == p then Some(Position(e.inode, e.hi)) else now, cut, p)
  {
    var now' := if e.path == p then Some(Position(e.inode, e.hi)) else now;
    LastOfTail(e, rest, p);
    assert Due(rest, now', p) == Due([e] + rest, now, p);
    forall x | IsMark(rest, now', p, x) ensures IsMark([e] + rest, now, p, x) { MarkTail(e, rest, now, p, x); }
  }

  /** A piece of another path is cut. */
  lemma RestsElsewhere(
    h: History, es: seq<Entry>, sent: seq<Entry>, now: Option<Position>, cut: Option<Position>, p: string)
    requires Rests(h, es, now, cut, p) && |sent| <= 1 && (sent != [] ==> sent[0].path != p)
    ensures Rests(h, es + sent, now, cut, p)
  {
    if sent == [] {
      assert es + sent == es;
    } else {
      var e := sent[0];
      assert sent == [e];
      LastOfAppend(es, e, p);
      forall x | IsMark(es + [e], now, p, x) ensures IsMark(es, now, p, x) { MarkFront(es, e, now, p, x); }
    }
  }

  /** A piece of p up to hi is cut: an entry, or a blank that is in the history. */
  lemma RestsCut(
    h: History, es: seq<Entry>, sent: seq<Entry>, now: Option<Position>, p: string, i: nat, lo: nat, hi: nat)
    requires Rests(h, es, now, Some(Position(i, lo)), p) && lo <= hi && |sent| <= 1
    requires sent != [] ==> sent[0].path == p && sent[0].inode == i && sent[0].hi == hi
    requires sent == [] ==> Idle(h, i, lo, hi)
    ensures Rests(h, es + sent, now, Some(Position(i, hi)), p)
  {
    if sent == [] {
      assert es + sent == es;
    } else {
      assert sent == [sent[0]];
      LastOfAppend(es, sent[0], p);
    }
  }

  /** The file of p, read to its end, is dropped, and perhaps forgotten. */
  lemma RestsDropped(
    h: History, es: seq<Entry>, now: Option<Position>, now': Option<Position>, p: string, i: nat, n: nat)
    requires Rests(h, es, now, Some(Position(i, n)), p) && NoneBeyond(es, now, p, i, n) && (now' == now || now' == None)
    ensures Rests(h, es, now', None, p)
  {
    var due := Due(es, now', p);
    if due.Some? {
      assert due == Due(es, now, p);
      forall x | IsMark(es, now', p, x) && x.inode == due.value.inode
        ensures Idle(h, due.value.inode, due.value.offset, x.offset)
      {
        assert IsMark(es, now, p, x);
      }
    }
  }

  /** p is opened at o: where it was, at 0, or past bytes that the history then has as passed over. */
  lemma RestsOpened(h: History, es: seq<Entry>, now: Option<Position>, p: string, i: nat, o: nat)
    requires Rests(h, es, now, None, p)
    requires || o == 0 || now == Some(Position(i, o))
             || (LastOf(es, p).Some? && LastOf(es, p).value.inode == i ==> Idle(h, i, 0, o))
    ensures Rests(h, es, Some(Position(i, o)), Some(Position(i, o)), p)
  {
    var x := Position(i, o);
    var last := LastOf(es, p);
    if last.Some? {
      if last.value.inode == i {
        if now == Some(x) { assert IsMark(es, now, p, x); }
      } else {
        forall y | IsMark(es, Some(x), p, y) && y.inode == last.value.inode
          ensures Idle(h, last.value.inode, last.value.offset, y.offset)
        {
          assert IsMark(es, now, p, y);
        }
      }
    }
  }

  // ---- every step keeps it ----

  /** Entries move along, files are marked, positions are saved, a batch is settled. */
  lemma MovesSettled(a: Agent, a': Agent, h: History, h': History, seen: map<nat, nat>)
    requires Settled(a, h, seen) && Extends(h, h')
    requires Trail(a') == Trail(a) && a'.positions == a.positions && a'.reading == a.reading
    requires a'.files.Keys == a.files.Keys && forall p :: p in a.files ==>
               a'.files[p] == a.files[p].(gone := a'.files[p].gone)
    ensures Settled(a', h', seen)
  {
    forall p ensures RestsAt(a', h', p) {
      assert RestsAt(a, h, p);
      assert Followed(a', p) == Followed(a, p);
      RestsGrows(h, h', Trail(a), PosOf(a.positions, p), Followed(a, p), p);
    }
  }

  lemma SetPosAt(m: PosMap, path: string, pos: Position, q: string)
    requires pos.inode != 0
    ensures PosOf(SetPos(m, path, pos), q) == if q == path then Some(pos) else PosOf(m, q)
  {
  }

  lemma AckSettled(a: Agent, a': Agent, e: Entry, rest: seq<Entry>, h: History, seen: map<nat, nat>)
    requires Settled(a, h, seen) && Trail(a) == [e] + rest && Trail(a') == rest && e.inode != 0
    requires a'.positions == SetPos(a.positions, e.path, Position(e.inode, e.hi))
    requires a'.reading == a.reading && a'.files == a.files
    ensures Settled(a', h, seen)
  {
    var x := Position(e.inode, e.hi);
    forall p ensures RestsAt(a', h, p) {
      assert RestsAt(a, h, p);
      SetPosAt(a.positions, e.path, x, p);
      assert Followed(a', p) == Followed(a, p);
      RestsAcked(h, e, rest, PosOf(a.positions, p), Followed(a, p), p);
    }
    forall k | 0 <= k < |rest| ensures rest[k].inode in seen { assert Trail(a)[k + 1] == rest[k]; }
    if a.reading.Some? {
      var r := a.reading.value;
      SetPosAt(a.positions, e.path, x, r.path);
      if r.n < READ_CHUNK { AckBeyond(e, rest, PosOf(a.positions, r.path), r.path, r.file.inode, r.file.pos); }
    }
  }

  lemma AckBeyond(e: Entry, rest: seq<Entry>, now: Option<Position>, p: string, i: nat, n: nat)
    requires NoneBeyond([e] + rest, now, p, i, n)
    ensures NoneBeyond(rest, if e.path == p then Some(Position(e.inode, e.hi)) else now, p, i, n)
  {
    var now' := if e.path == p then Some(Position(e.inode, e.hi)) else now;
    forall x | IsMark(rest, now', p, x) && x.inode == i ensures x.offset <= n { MarkTail(e, rest, now, p, x); }
  }

  lemma BeginSettled(a: Agent, r: Reading, data: Data, h: History, seen: map<nat, nat>)
    requires Settled(a, h, seen) && a.reading.None? && r.path in a.files
    requires PosOk(a.positions, data, h) && AcksOk(a.ship.acking, data, h) && AllTrue(Queue(a), data)
    requires r.file.inode == a.files[r.path].inode && r.file.offset == a.files[r.path].offset && r.file.inode in data
    requires r.n < READ_CHUNK ==> r.file.pos == |data[r.file.inode]|
    ensures Settled(a.(reading := Some(r)), h, seen)
  {
    var a' := a.(reading := Some(r));
    assert Trail(a') == Trail(a);
    forall p ensures RestsAt(a', h, p) {
      assert RestsAt(a, h, p);
      assert Followed(a', p) == Followed(a, p);
    }
    MarksInFile(a, data, h, r.path);
  }

  lemma MarksInFile(a: Agent, data: Data, h: History, p: string)
    requires PosOk(a.positions, data, h) && AcksOk(a.ship.acking, data, h) && AllTrue(Queue(a), data)
    ensures forall x :: IsMark(Trail(a), PosOf(a.positions, p), p, x) ==> x.inode in data && x.offset <= |data[x.inode]|
  {
    var es, n := Trail(a), |a.ship.acking|;
    forall x | IsMark(es, PosOf(a.positions, p), p, x) ensures x.inode in data && x.offset <= |data[x.inode]| {
      if PosOf(a.positions, p) != Some(x) {
        var k :| Ends(es, k, p, x);
        if k < n { assert es[k] == a.ship.acking[k]; } else { assert es[k] == Queue(a)[k - n]; }
      }
    }
  }

  /** Opening starts at 0, at the position, or past a known file's bytes, which count as passed over. */
  lemma OpenStarts(s: Sys, a: Agent, p: string)
    requires s.agent == Some(a) && p in s.dir && s.dir[p] in s.data
    ensures var s' := OpenFile(s, a, p);
            var i, o := s.dir[p], s'.agent.value.files[p].offset;
            || o == 0 || PosOf(a.positions, p) == Some(Position(i, o))
            || (i in s.seen ==> s'.past.passed == s.past.passed + [Span(i, 0, o)])
  {
  }

  lemma OpenSettled(s: Sys, s': Sys, p: string)
    requires Opens(s, s', p) && s'.agent.value.reading.None? && p !in s.agent.value.files && s.dir[p] != 0
    requires Settled(s.agent.value, s.past, s.seen)
    requires var i, o := s.dir[p], s'.agent.value.files[p].offset;
             || o == 0 || PosOf(s.agent.value.positions, p) == Some(Position(i, o))
             || (i in s.seen ==> s'.past.passed == s.past.passed + [Span(i, 0, o)])
    ensures Settled(s'.agent.value, s'.past, s'.seen)
  {
    var a, a' := s.agent.value, s'.agent.value;
    var i, o := s.dir[p], a'.files[p].offset;
    var es := Trail(a);
    assert Trail(a') == es;
    forall q ensures RestsAt(a', s'.past, q) {
      assert RestsAt(a, s.past, q);
      SetPosAt(a.positions, p, Position(i, o), q);
      RestsGrows(s.past, s'.past, es, PosOf(a.positions, q), Followed(a, q), q);
      if q == p {
        OpenedKnown(es, s.seen, p);
        if i in s.seen && s'.past.passed == s.past.passed + [Span(i, 0, o)] { PassedIsIdle(s'.past, i, o); }
        RestsOpened(s'.past, es, PosOf(a.positions, p), p, i, o);
      } else {
        assert Followed(a', q) == Followed(a, q);
      }
    }
  }

  lemma OpenedKnown(es: seq<Entry>, seen: map<nat, nat>, p: string)
    requires forall k :: 0 <= k < |es| ==> es[k].inode in seen
    ensures LastOf(es, p).Some? ==> LastOf(es, p).value.inode in seen
  {
    if LastOf(es, p).Some? { var k :| Ends(es, k, p, LastOf(es, p).value); }
  }

  lemma PassedIsIdle(h: History, i: nat, o: nat)
    requires h.passed != [] && h.passed[|h.passed| - 1] == Span(i, 0, o)
    ensures Idle(h, i, 0, o)
  {
    forall b | 0 <= b < o ensures Within(h.passed, i, b) { }
  }

  /** `a'` is `a` after its reading moved the offset to `hi`; the file in hand is kept, or dropped at its end. */
  ghost predicate Piece(a: Agent, a': Agent, sent: seq<Entry>, hi: nat) {
    && a.reading.Some?
    && var r := a.reading.value;
    && |sent| <= 1 && r.file.offset <= hi <= r.file.pos
    && (sent != [] ==> sent[0].path == r.path && sent[0].inode == r.file.inode && sent[0].hi == hi)
    && a' == a.(reading := a'.reading, files := a'.files, positions := a'.positions)
    && (forall p :: p != r.path ==>
          (p in a'.files <==> p in a.files) && (p in a.files ==> a'.files[p] == a.files[p])
          && PosOf(a'.positions, p) == PosOf(a.positions, p))
    && if r.path in a'.files then Kept(a, a', r, hi) else DroppedAtEnd(a, a', r, hi)
  }

  ghost predicate Kept(a: Agent, a': Agent, r: Reading, hi: nat) {
    && r.path in a'.files && a'.files[r.path].inode == r.file.inode && Once.CutTo(a', r.path) == hi
    && a'.positions == a.positions
    && (a'.reading.Some? ==>
          var r' := a'.reading.value;
          r'.path == r.path && r'.n == r.n && r'.file.inode == r.file.inode && r'.file.pos == r.file.pos)
  }

  ghost predicate DroppedAtEnd(a: Agent, a': Agent, r: Reading, hi: nat) {
    && a'.reading.None? && r.path !in a'.files && hi == r.file.pos && r.n < READ_CHUNK
    && (PosOf(a'.positions, r.path) == PosOf(a.positions, r.path) || PosOf(a'.positions, r.path) == None)
  }

  lemma PieceSettled(a: Agent, a': Agent, sent: seq<Entry>, hi: nat, h: History, h': History, seen: map<nat, nat>)
    requires Settled(a, h, seen) && Extends(h, h') && Piece(a, a', sent, hi)
    requires var r := a.reading.value; sent == [] ==> Idle(h', r.file.inode, r.file.offset, hi)
    ensures Settled(a'.(channel := a'.channel + sent), h', seen)
  {
    var r := a.reading.value;
    var b := a'.(channel := a'.channel + sent);
    assert Trail(b) == Trail(a) + sent;
    forall p ensures RestsAt(b, h', p) {
      assert RestsAt(a, h, p);
      RestsGrows(h, h', Trail(a), PosOf(a.positions, p), Followed(a, p), p);
      if p == r.path { PieceHere(a, b, sent, hi, h'); } else { PieceElsewhere(a, a', b, sent, hi, h', p); }
    }
    forall k | 0 <= k < |Trail(b)| ensures Trail(b)[k].inode in seen {
      if k < |Trail(a)| { assert Trail(b)[k] == Trail(a)[k]; }
    }
    if b.reading.Some? && r.n < READ_CHUNK {
      PieceBeyond(Trail(a), sent, PosOf(a.positions, r.path), r.path, r.file.inode, r.file.pos);
    }
  }

  lemma PieceElsewhere(a: Agent, a': Agent, b: Agent, sent: seq<Entry>, hi: nat, h: History, p: string)
    requires Piece(a, a', sent, hi) && b == a'.(channel := b.channel) && Trail(b) == Trail(a) + sent
    requires p != a.reading.value.path && RestsAt(a, h, p)
    ensures RestsAt(b, h, p)
  {
    assert Followed(b, p) == Followed(a, p);
    RestsElsewhere(h, Trail(a), sent, PosOf(a.positions, p), Followed(a, p), p);
  }

  lemma PieceHere(a: Agent, b: Agent, sent: seq<Entry>, hi: nat, h: History)
    requires HandOk(a) && a.reading.Some? && Trail(b) == Trail(a) + sent && |sent| <= 1
    requires var r := a.reading.value;
             && r.file.offset <= hi <= r.file.pos && RestsAt(a, h, r.path)
             && (sent != [] ==> sent[0].path == r.path && sent[0].inode == r.file.inode && sent[0].hi == hi)
             && (sent == [] ==> Idle(h, r.file.inode, r.file.offset, hi))
             && if r.path in b.files then Kept(a, b, r, hi) else DroppedAtEnd(a, b, r, hi)
    ensures RestsAt(b, h, a.reading.value.path)
  {
    var r := a.reading.value;
    var p, i := r.path, r.file.inode;
    var now := PosOf(a.positions, p);
    RestsCut(h, Trail(a), sent, now, p, i, r.file.offset, hi);
    if p !in b.files {
      PieceBeyond(Trail(a), sent, now, p, i, hi);
      RestsDropped(h, Trail(b), now, PosOf(b.positions, p), p, i, hi);
    }
  }

  lemma PieceBeyond(es: seq<Entry>, sent: seq<Entry>, now: Option<Position>, p: string, i: nat, n: nat)
    requires NoneBeyond(es, now, p, i, n) && |sent| <= 1 && (sent != [] ==> sent[0].hi <= n)
    ensures NoneBeyond(es + sent, now, p, i, n)
  {
    if sent == [] {
      assert es + sent == es;
    } else {
      assert sent == [sent[0]];
      forall x | IsMark(es + sent, now, p, x) && x.inode == i ensures x.offset <= n {
        MarkFront(es, sent[0], now, p, x);
      }
    }
  }

  // ---- over whole runs ----

  lemma StartSettles(c: Config, s: Sys)
    requires Enabled(c, s, Start)
    ensures Settling(Next(c, s, Start))
  {
    var a := Agent(s.now, false, s.saved, None, map[], None, [], Ship.NewShip());
    assert Trail(a) == [];
    assert Settled(a, s.past, s.seen);
    assert Next(c, s, Start) == s.(agent := Some(a));
  }

  lemma OpenSettles(c: Config, s: Sys, p: string)
    requires Inv(c, s) && Enabled(c, s, Open(p)) && Settling(s)
    ensures Settling(Next(c, s, Open(p)))
  {
    var a := s.agent.value;
    var s' := OpenFile(s, a, p);
    OpenParts(s, a, p);
    if !a.cancelled {
      OpenStarts(s, a, p);
      OpenSettled(s, s', p);
    }
    assert Next(c, s, Open(p)) == s';
  }

  lemma BeginSettles(c: Config, s: Sys, p: string)
    requires Inv(c, s) && Enabled(c, s, Begin(p)) && Settling(s)
    ensures Settling(Next(c, s, Begin(p)))
  {
    var a := s.agent.value;
    var content := s.data[a.files[p].inode];
    var r := BeginRead(p, a.files[p], content);
    BeginHolds(p, a.files[p], content);
    if !a.cancelled { BeginSettled(a, r, s.data, s.past, s.seen); }
    assert Next(c, s, Begin(p)) == s.(agent := Some(a.(reading := Some(r))));
  }

  lemma BlankIsIdle(h: History, i: nat, lo: nat, hi: nat)
    requires h.blanks != [] && h.blanks[|h.blanks| - 1] == Span(i, lo, hi)
    ensures Idle(h, i, lo, hi)
  {
    forall b | lo <= b < hi ensures Within(h.blanks, i, b) { }
  }

  lemma SentSettles(s: Sys, a: Agent, a': Agent, sent: seq<Entry>, hi: nat)
    requires s.agent == Some(a) && Settling(s) && Piece(a, a', sent, hi)
    ensures var tf := a.reading.value.file; Settling(Sent(s, a', sent, tf.inode, tf.offset, hi))
  {
    var tf := a.reading.value.file;
    var s' := Sent(s, a', sent, tf.inode, tf.offset, hi);
    if !a.cancelled {
      if sent == [] && tf.offset < hi { BlankIsIdle(s'.past, tf.inode, tf.offset, hi); }
      PieceSettled(a, a', sent, hi, s.past, s'.past, s.seen);
    }
  }

  lemma CutSettles(c: Config, s: Sys)
    requires Inv(c, s) && Enabled(c, s, Cut) && Settling(s)
    ensures Settling(Next(c, s, Cut))
  {
    var a := s.agent.value;
    var r := a.reading.value;
    var (r', sent) := CutLine(r);
    CutLineHolds(r, s.data[r.file.inode]);
    if !a.cancelled { SentSettles(s, a, a.(reading := Some(r')), sent, r'.file.offset); }
    assert Next(c, s, Cut) == CutStep(s, a);
  }

  lemma EndIsPiece(a: Agent, content: seq<Byte>, now: int, present: bool)
    requires HandOk(a) && a.reading.Some? && Holds(a.reading.value, content) && !HasLine(a.reading.value)
    ensures var r := a.reading.value;
            var f := EndRead(r, now);
            Piece(a, Finish(a, r.path, f, present), f.sent, f.file.offset)
  {
    EndReadHolds(a.reading.value, content, now);
  }

  lemma EndSettles(c: Config, s: Sys)
    requires Inv(c, s) && Enabled(c, s, End) && Settling(s)
    ensures Settling(Next(c, s, End))
  {
    var a := s.agent.value;
    var r := a.reading.value;
    var f := EndRead(r, s.now);
    if !a.cancelled {
      EndIsPiece(a, s.data[r.file.inode], s.now, r.path in s.dir);
      SentSettles(s, a, Finish(a, r.path, f, r.path in s.dir), f.sent, f.file.offset);
    }
    assert Next(c, s, End) == EndStep(s, a);
  }

  lemma PostTrail(a: Agent, a': Agent)
    requires a.ship.acking == [] && a' == a.(ship := Ship.Settle(a.ship))
    ensures Trail(a') == Trail(a)
  {
    Ship.SettlePending(a.ship);
    assert a'.ship.acking == a.ship.batch;
  }

  lemma PostSettles(c: Config, s: Sys, v: Ship.Verdict)
    requires Inv(c, s) && Enabled(c, s, Post(v)) && Settling(s)
    ensures Settling(Next(c, s, Post(v)))
  {
    var a := s.agent.value;
    var s' := PostStep(c, s, a, v);
    if !a.cancelled {
      var a' := a.(ship := Ship.Settle(a.ship));
      assert s'.agent == Some(a') && s'.seen == s.seen && Extends(s.past, s'.past);
      PostTrail(a, a');
      MovesSettled(a, a', s.past, s'.past, s.seen);
    }
    assert Next(c, s, Post(v)) == s';
  }

  lemma AckTrail(c: Config, a: Agent, a': Agent)
    requires Ship.Valid(a.ship, c.lim) && a.ship.phase.Acking? && a.ship.acking != []
    requires a'.ship == Ship.AckOne(a.ship, c.lim) && a'.channel == a.channel
    ensures Trail(a) == [a.ship.acking[0]] + Trail(a')
  {
    AckQueue(c, a);
    assert a'.ship.acking == a.ship.acking[1..];
    assert a.ship.acking == [a.ship.acking[0]] + a'.ship.acking;
  }

  lemma AckSettles(c: Config, s: Sys)
    requires Inv(c, s) && Enabled(c, s, Ack) && Settling(s)
    ensures Settling(Next(c, s, Ack))
  {
    var a := s.agent.value;
    var a' := AgentNext(c, s, a, Ack);
    if !a.cancelled {
      AckTrail(c, a, a');
      assert a.ship.acking[0].inode in s.data;
      AckSettled(a, a', a.ship.acking[0], Trail(a'), s.past, s.seen);
    }
    assert Next(c, s, Ack) == s.(agent := Some(a'));
  }

  lemma MarksSettle(c: Config, s: Sys, step: Step)
    requires Enabled(c, s, step) && Settling(s) && (step.Scan? || step.Unmatch?)
    ensures Settling(Next(c, s, step))
  {
    var a := s.agent.value;
    var a' := AgentNext(c, s, a, step);
    MarkIsMemory(c, s, a, step);
    if !a.cancelled {
      assert Trail(a') == Trail(a);
      MovesSettled(a, a', s.past, s.past, s.seen);
    }
    assert Next(c, s, step) == s.(agent := Some(a'));
  }

  lemma MovesTrail(c: Config, s: Sys, a: Agent, step: Step)
    requires Ship.Valid(a.ship, c.lim) && AgentEnabled(c, s, a, step) && (step.Recv? || step.Timer? || step.Marshal?)
    ensures var a' := AgentNext(c, s, a, step);
            && Trail(a') == Trail(a) && a'.reading == a.reading && a'.files == a.files
            && a'.positions == a.positions && a'.cancelled == a.cancelled
  {
    Once.QueueStays(c, s, a, step);
    assert AgentNext(c, s, a, step).ship.acking == a.ship.acking;
  }

  lemma MovesSettle(c: Config, s: Sys, step: Step)
    requires Inv(c, s) && Enabled(c, s, step) && Settling(s) && (step.Recv? || step.Timer? || step.Marshal?)
    ensures Settling(Next(c, s, step))
  {
    var a := s.agent.value;
    MovesTrail(c, s, a, step);
    MovedSettles(s, a, AgentNext(c, s, a, step));
    assert Next(c, s, step) == s.(agent := Some(AgentNext(c, s, a, step)));
  }

  lemma MovedSettles(s: Sys, a: Agent, a': Agent)
    requires s.agent == Some(a) && Settling(s) && a'.cancelled == a.cancelled
    requires Trail(a') == Trail(a) && a'.reading == a.reading && a'.files == a.files && a'.positions == a.positions
    ensures Settling(s.(agent := Some(a')))
  {
    if !a.cancelled { MovesSettled(a, a', s.past, s.past, s.seen); }
  }

  lemma OthersSettle(c: Config, s: Sys, step: Step)
    requires Inv(c, s) && Enabled(c, s, step) && Settling(s)
    requires step.Append? || step.Create? || step.Rename? || step.Unlink? || step.Tick? || step.Crash? || step.Cancel?
      || step.Write?
    ensures Settling(Next(c, s, step))
  {
    var s' := Next(c, s, step);
    if s.agent.Some? && !s.agent.value.cancelled && step != Crash && step != Cancel {
      var a, a' := s.agent.value, s'.agent.value;
      assert Trail(a') == Trail(a);
      MovesSettled(a, a', s.past, s.past, s.seen);
    }
  }

  lemma ReadingSettles(c: Config, s: Sys, step: Step)
    requires Inv(c, s) && Enabled(c, s, step) && Settling(s) && (step.Begin? || step.Cut? || step.End?)
    ensures Settling(Next(c, s, step))
  {
    if step.Begin? { BeginSettles(c, s, step.path); }
    else if step.Cut? { CutSettles(c, s); }
    else { EndSettles(c, s); }
  }

  lemma StepSettles(c: Config, s: Sys, step: Step)
    requires Inv(c, s) && Enabled(c, s, step) && Settling(s)
    ensures Settling(Next(c, s, step))
  {
    if step.Begin? || step.Cut? || step.End? { ReadingSettles(c, s, step); }
    else if step.Open? { OpenSettles(c, s, step.path); }
    else if step.Scan? || step.Unmatch? { MarksSettle(c, s, step); }
    else if step.Start? { StartSettles(c, s); }
    else if step.Post? { PostSettles(c, s, step.verdict); }
    else if step.Ack? { AckSettles(c, s); }
    else if step.Recv? || step.Timer? || step.Marshal? { MovesSettle(c, s, step); }
    else { OthersSettle(c, s, step); }
  }

  lemma {:induction false} RunSettles(c: Config, states: seq<Sys>, steps: seq<Step>, k: nat)
    requires IsRun(c, states, steps) && Inv(c, states[0]) && Settling(states[0]) && k <= |steps|
    ensures Settling(states[k])
  {
    if k > 0 {
      RunSettles(c, states, steps, k - 1);
      RunKeeps(c, states, steps, k - 1);
      StepSettles(c, states[k - 1], steps[k - 1]);
    }
  }

  /**
   Wherever a run stands with nothing on its way: between the position of a
   followed path and where its file was cut to, if both are of one file, there
   are only blank lines, and stretches that were passed over.
   */
  lemma CaughtUp(c: Config, states: seq<Sys>, steps: seq<Step>, k: nat, p: string)
    requires IsRun(c, states, steps) && Init(states[0]) && c.lim.lines >= 1 && k <= |steps|
    requires states[k].agent.Some? && !states[k].agent.value.cancelled
    requires var a := states[k].agent.value;
             && a.reading.None? && Queue(a) == [] && a.ship.acking == []
             && p in a.files && p in a.positions && a.positions[p].inode == a.files[p].inode
    ensures var a, h := states[k].agent.value, states[k].past;
            forall b :: a.positions[p].offset <= b < a.files[p].offset ==>
              Within(h.blanks, a.files[p].inode, b) || Within(h.passed, a.files[p].inode, b)
  {
    InitInv(c, states[0]);
    RunSettles(c, states, steps, k);
    var a := states[k].agent.value;
    assert Trail(a) == [];
    assert RestsAt(a, states[k].past, p);
  }
}
