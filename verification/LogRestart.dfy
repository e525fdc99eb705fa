/**
 What is read again after a restart, in every continuation: the opening of a
 path that was not opened since the agent started, and the limit on followed
 files (open and discover in internal/logs/tail.go).
 */
module LogRestart {
  import opened Prelude
  import opened LogLines
  import opened LogTail
  import opened LogPositions
  import opened LogDelivery
  import opened LogSafety
  import Ship = LogShip

  // ---- until a path is opened its position is the loaded one ----

  ghost predicate NoPath(es: seq<Entry>, p: string) {
    forall k :: 0 <= k < |es| ==> es[k].path != p
  }

  lemma NoPathConcat(a: seq<Entry>, b: seq<Entry>, p: string)
    ensures NoPath(a + b, p) <==> NoPath(a, p) && NoPath(b, p)
  {
    if NoPath(a + b, p) {
      forall k | 0 <= k < |a| ensures a[k].path != p { assert (a + b)[k] == a[k]; }
      forall k | 0 <= k < |b| ensures b[k].path != p { assert (a + b)[|a| + k] == b[k]; }
    }
  }

  lemma NoPathTail(es: seq<Entry>, p: string)
    requires es != [] && NoPath(es, p)
    ensures NoPath(es[1..], p) && es[0].path != p
  {
  }

  /** The agent has done nothing with p yet. */
  ghost predicate Untried(a: Agent, p: string, pos: Option<Position>) {
    && PosOf(a.positions, p) == pos && p !in a.files
    && (a.reading.Some? ==> a.reading.value.path != p)
    && NoPath(Queue(a), p) && NoPath(a.ship.acking, p)
  }

  ghost predicate UntriedSince(s: Sys, p: string, pos: Option<Position>, started: int) {
    s.agent.Some? && s.agent.value.started == started && Untried(s.agent.value, p, pos)
  }

  lemma PieceUntried(s: Sys, a: Agent, sent: seq<Entry>, i: nat, lo: nat, hi: nat, p: string, pos: Option<Position>)
    requires Untried(a, p, pos) && NoPath(sent, p)
    ensures UntriedSince(Sent(s, a, sent, i, lo, hi), p, pos, a.started)
  {
    var a' := Sent(s, a, sent, i, lo, hi).agent.value;
    assert Queue(a') == Queue(a) + sent;
    NoPathConcat(Queue(a), sent, p);
  }

  lemma CutUntried(c: Config, s: Sys, p: string, pos: Option<Position>)
    requires Enabled(c, s, Cut) && UntriedSince(s, p, pos, s.agent.value.started)
    ensures UntriedSince(Next(c, s, Cut), p, pos, s.agent.value.started)
  {
    var a := s.agent.value;
    var r := a.reading.value;
    var (r', sent) := CutLine(r);
    var a' := a.(reading := Some(r'));
    assert Queue(a') == Queue(a);
    PieceUntried(s, a', sent, r.file.inode, r.file.offset, r'.file.offset, p, pos);
  }

  lemma EndUntried(c: Config, s: Sys, p: string, pos: Option<Position>)
    requires Enabled(c, s, End) && UntriedSince(s, p, pos, s.agent.value.started)
    ensures UntriedSince(Next(c, s, End), p, pos, s.agent.value.started)
  {
    var a := s.agent.value;
    var r := a.reading.value;
    var f := EndRead(r, s.now);
    var a' := Finish(a, r.path, f, r.path in s.dir);
    assert Queue(a') == Queue(a);
    PieceUntried(s, a', f.sent, r.file.inode, r.file.offset, f.file.offset, p, pos);
  }

  lemma OpenUntried(c: Config, s: Sys, q: string, p: string, pos: Option<Position>)
    requires Enabled(c, s, Open(q)) && q != p && UntriedSince(s, p, pos, s.agent.value.started)
    ensures UntriedSince(Next(c, s, Open(q)), p, pos, s.agent.value.started)
  {
    OpenParts(s, s.agent.value, q);
    assert Next(c, s, Open(q)) == OpenFile(s, s.agent.value, q);
    assert Queue(OpenFile(s, s.agent.value, q).agent.value) == Queue(s.agent.value);
  }

  lemma PostUntried(c: Config, s: Sys, v: Ship.Verdict, p: string, pos: Option<Position>)
    requires Inv(c, s) && Enabled(c, s, Post(v)) && UntriedSince(s, p, pos, s.agent.value.started)
    ensures UntriedSince(Next(c, s, Post(v)), p, pos, s.agent.value.started)
  {
    var a := s.agent.value;
    var a' := a.(ship := if v.Abandoned? then Ship.Resume(a.ship, c.lim) else Ship.Settle(a.ship));
    PostQueue(c, a, a', v);
    NoPathConcat(a.ship.batch, Queue(a'), p);
    Ship.ResumeValid(a.ship, c.lim);
    assert a'.ship.acking == if v.Abandoned? then [] else a.ship.batch;
    assert Next(c, s, Post(v)).agent == Some(a');
  }

  lemma AckUntried(c: Config, s: Sys, p: string, pos: Option<Position>)
    requires Inv(c, s) && Enabled(c, s, Ack) && UntriedSince(s, p, pos, s.agent.value.started)
    ensures UntriedSince(Next(c, s, Ack), p, pos, s.agent.value.started)
  {
    var a := s.agent.value;
    var a' := AgentNext(c, s, a, Ack);
    AckQueue(c, a);
    assert Queue(a') == Queue(a);
    Ship.ResumeValid(a.ship.(acking := a.ship.acking[1..]), c.lim);
    assert a'.ship.acking == a.ship.acking[1..];
    NoPathTail(a.ship.acking, p);
    assert Next(c, s, Ack) == s.(agent := Some(a'));
  }

  /** Steps that move entries along, mark followed files, begin a round or save. */
  lemma MemoryUntried(c: Config, s: Sys, step: Step, p: string, pos: Option<Position>)
    requires Inv(c, s) && Enabled(c, s, step) && s.agent.Some? && Untried(s.agent.value, p, pos)
    requires step.Cancel? || step.Scan? || step.Unmatch? || step.Begin? || step.Recv? || step.Timer? || step.Marshal?
    ensures UntriedSince(Next(c, s, step), p, pos, s.agent.value.started)
  {
    var a := s.agent.value;
    var a' := AgentNext(c, s, a, step);
    QueueStays(c, s, a, step);
    assert Next(c, s, step) == s.(agent := Some(a'));
  }

  lemma QueueStays(c: Config, s: Sys, a: Agent, step: Step)
    requires Ship.Valid(a.ship, c.lim) && AgentEnabled(c, s, a, step)
    requires step.Cancel? || step.Scan? || step.Unmatch? || step.Begin? || step.Recv? || step.Timer? || step.Marshal?
    ensures var a' := AgentNext(c, s, a, step);
            && Queue(a') == Queue(a) && a'.ship.acking == a.ship.acking && a'.positions == a.positions
            && a'.started == a.started && a'.files.Keys == a.files.Keys
            && (a'.reading == a.reading || (step.Begin? && a'.reading.Some? && a'.reading.value.path in a.files))
  {
    var a' := AgentNext(c, s, a, step);
    if step.Recv? {
      RecvQueue(c, a, a', step.size);
    } else if step.Scan? || step.Unmatch? {
      MarkIsMemory(c, s, a, step);
    }
  }

  lemma OtherUntried(c: Config, s: Sys, step: Step, p: string, pos: Option<Position>)
    requires Enabled(c, s, step) && s.agent.Some? && Untried(s.agent.value, p, pos)
    requires step.Append? || step.Create? || step.Rename? || step.Unlink? || step.Tick? || step.Write?
    ensures UntriedSince(Next(c, s, step), p, pos, s.agent.value.started)
  {
    var a, a' := s.agent.value, Next(c, s, step).agent.value;
    assert Queue(a') == Queue(a);
  }

  lemma StepUntried(c: Config, s: Sys, step: Step, p: string, pos: Option<Position>)
    requires Inv(c, s) && Enabled(c, s, step) && s.agent.Some? && Untried(s.agent.value, p, pos)
    requires step != Crash && step != Open(p)
    ensures UntriedSince(Next(c, s, step), p, pos, s.agent.value.started)
  {
    if step.Cut? { CutUntried(c, s, p, pos); }
    else if step.End? { EndUntried(c, s, p, pos); }
    else if step.Open? { OpenUntried(c, s, step.path, p, pos); }
    else if step.Post? { PostUntried(c, s, step.verdict, p, pos); }
    else if step.Ack? { AckUntried(c, s, p, pos); }
    else if step.Append? || step.Create? || step.Rename? || step.Unlink? || step.Tick? || step.Write? {
      OtherUntried(c, s, step, p, pos);
    } else {
      MemoryUntried(c, s, step, p, pos);
    }
  }

  lemma StartUntried(c: Config, s: Sys, p: string)
    requires Enabled(c, s, Start)
    ensures UntriedSince(Next(c, s, Start), p, PosOf(s.saved, p), s.now)
  {
    assert Queue(Next(c, s, Start).agent.value) == [];
  }

  /** The agent that started at step j is still running before step k and has not opened p. */
  ghost predicate StartedAndUnopened(steps: seq<Step>, j: nat, k: nat, p: string)
    requires k <= |steps|
  {
    j < k && steps[j] == Start && forall m :: j < m < k ==> steps[m] != Crash && steps[m] != Open(p)
  }

  lemma {:induction false} RunUntried(c: Config, states: seq<Sys>, steps: seq<Step>, j: nat, k: nat, p: string)
    requires IsRun(c, states, steps) && Inv(c, states[0]) && k <= |steps| && StartedAndUnopened(steps, j, k, p)
    ensures UntriedSince(states[k], p, PosOf(states[j].saved, p), states[j].now)
    decreases k
  {
    if k == j + 1 {
      StartUntried(c, states[j], p);
    } else {
      RunUntried(c, states, steps, j, k - 1, p);
      LaterUntried(c, states, steps, k - 1, p, PosOf(states[j].saved, p), states[j].now);
    }
  }

  lemma LaterUntried(
    c: Config, states: seq<Sys>, steps: seq<Step>, m: nat, p: string, pos: Option<Position>, started: int)
    requires IsRun(c, states, steps) && Inv(c, states[0]) && m < |steps| && UntriedSince(states[m], p, pos, started)
    requires steps[m] != Crash && steps[m] != Open(p)
    ensures UntriedSince(states[m + 1], p, pos, started)
  {
    RunKeeps(c, states, steps, m);
    StepUntried(c, states[m], steps[m], p, pos);
  }

  // ---- what its opening reads ----

  ghost predicate Leads(c: Config, s: Sys, p: string, i: nat) {
    p in c.watched && p in s.dir && s.dir[p] == i
  }

  /** The tailer is between two rounds and follows fewer files than it may. */
  predicate HasRoom(s: Sys) {
    s.agent.Some? && s.agent.value.reading.None? && |s.agent.value.files| < MAX_FILES
  }

  /** p can be opened now, and reading then starts at or before b. */
  ghost predicate ReadsFrom(c: Config, s: Sys, p: string, b: nat) {
    && Enabled(c, s, Open(p))
    && var s' := OpenFile(s, s.agent.value, p);
    s'.agent.Some? && p in s'.agent.value.files && s'.agent.value.files[p].offset <= b
  }

  /** The path had a position when the agent started, or the agent is no longer young. */
  predicate NotTakenForNew(saved: PosMap, p: string, uptime: int) {
    p in saved || uptime > 2 * INTERVAL
  }

  lemma OpensAtOrBefore(c: Config, s: Sys, p: string, i: nat, b: nat, saved: PosMap)
    requires Inv(c, s) && s.agent.Some? && Leads(c, s, p, i) && b < |s.data[i]| && !Behind(s.past, i, b)
    requires Untried(s.agent.value, p, PosOf(saved, p))
    ensures ReadsFrom(c, s, p, b) <==> HasRoom(s) && NotTakenForNew(saved, p, s.now - s.agent.value.started)
  {
    var a := s.agent.value;
    if p in a.positions {
      assert AllBehind(s.past, a.positions[p].inode, a.positions[p].offset);
    }
    assert Enabled(c, s, Open(p)) <==> HasRoom(s);
  }

  /**
   Wherever the run of a restarted agent has come to: a path with a saved
   position that it opens for the first time is read from that position, or
   from 0 if another file is there now. Nothing is passed over, and everything
   before was settled or passed over.
   */
  lemma RestartResumes(c: Config, states: seq<Sys>, steps: seq<Step>, j: nat, k: nat, p: string)
    requires IsRun(c, states, steps) && Init(states[0]) && c.lim.lines >= 1 && k <= |steps|
    requires StartedAndUnopened(steps, j, k, p) && p in states[j].saved && Enabled(c, states[k], Open(p))
    ensures var s, pos := states[k], states[j].saved[p];
            var s' := OpenFile(s, s.agent.value, p);
            var tf := s'.agent.value.files[p];
            && s'.past == s.past && tf.inode == s.dir[p] && tf.partial == []
            && tf.pos == tf.offset == (if s.dir[p] == pos.inode then pos.offset else 0)
            && (forall b :: 0 <= b < tf.offset ==> Done(s.past, tf.inode, b) || Within(s.past.passed, tf.inode, b))
  {
    InitInv(c, states[0]);
    RunKeeps(c, states, steps, k);
    RunUntried(c, states, steps, j, k, p);
    SettledBelow(states[k].agent.value.positions, states[k].data, states[k].past);
  }

  /**
   What a restart leaves to be read, wherever its run has come to: a byte on
   disk that is neither settled nor was passed over is read again by opening a
   path not opened since the start if and only if such a path leads to its
   file, had a saved position when the agent started or is opened only after
   the first two seconds, and the limit on followed files leaves room.
   */
  lemma ReadAgainIff(c: Config, states: seq<Sys>, steps: seq<Step>, j: nat, k: nat, i: nat, b: nat)
    requires IsRun(c, states, steps) && Init(states[0]) && c.lim.lines >= 1 && j < k <= |steps|
    requires var s := states[k];
             i in s.data && b < |s.data[i]| && !Done(s.past, i, b) && !Within(s.past.passed, i, b)
    ensures var s := states[k];
            (exists p :: Leads(c, s, p, i) && StartedAndUnopened(steps, j, k, p) && ReadsFrom(c, s, p, b)) <==>
            (exists p :: Leads(c, s, p, i) && StartedAndUnopened(steps, j, k, p)
                         && HasRoom(s) && NotTakenForNew(states[j].saved, p, s.now - states[j].now))
  {
    InitInv(c, states[0]);
    RunKeeps(c, states, steps, k);
    var s := states[k];
    forall p | Leads(c, s, p, i) && StartedAndUnopened(steps, j, k, p)
      ensures ReadsFrom(c, s, p, b) <==> HasRoom(s) && NotTakenForNew(states[j].saved, p, s.now - states[j].now)
    {
      RunUntried(c, states, steps, j, k, p);
      OpensAtOrBefore(c, s, p, i, b, states[j].saved);
    }
  }

  // ---- the limit on followed files ----

  /** Only watched paths are followed. */
  ghost predicate FollowsWatched(c: Config, s: Sys) {
    s.agent.Some? ==>
      && s.agent.value.files.Keys <= c.watched
      && (s.agent.value.reading.Some? ==> s.agent.value.reading.value.path in c.watched)
  }

  lemma StepFollowsWatched(c: Config, s: Sys, step: Step)
    requires Enabled(c, s, step) && FollowsWatched(c, s)
    ensures FollowsWatched(c, Next(c, s, step))
  {
    var s' := Next(c, s, step);
    if step.End? {
      var a := s.agent.value;
      var r := a.reading.value;
      assert s'.agent.value.files.Keys <= a.files.Keys + {r.path};
    }
  }

  lemma {:induction false} RunFollowsWatched(c: Config, states: seq<Sys>, steps: seq<Step>, k: nat)
    requires IsRun(c, states, steps) && Init(states[0]) && k <= |steps|
    ensures FollowsWatched(c, states[k])
  {
    if k > 0 {
      RunFollowsWatched(c, states, steps, k - 1);
      StepFollowsWatched(c, states[k - 1], steps[k - 1]);
    }
  }

  lemma ProperSubsetIsSmaller<T>(a: set<T>, b: set<T>, x: T)
    requires a <= b && x in b && x !in a
    ensures |a| < |b|
  {
    assert a < b;
    var rest := b - a;
    assert b == a + rest && a !! rest && x in rest;
  }

  /** p waits to be opened: watched, present, not followed, between two rounds. */
  ghost predicate Waits(c: Config, s: Sys, p: string) {
    s.agent.Some? && p in c.watched && p in s.dir && p !in s.agent.value.files && s.agent.value.reading.None?
  }

  /** The run ends in s. */
  ghost predicate LeadsTo(c: Config, states: seq<Sys>, steps: seq<Step>, s: Sys) {
    IsRun(c, states, steps) && Init(states[0]) && states[|steps|] == s
  }

  ghost predicate Reachable(c: Config, s: Sys) {
    exists states, steps :: LeadsTo(c, states, steps, s)
  }

  lemma ReachableInv(c: Config, s: Sys)
    requires Reachable(c, s) && c.lim.lines >= 1
    ensures Inv(c, s) && FollowsWatched(c, s)
  {
    var states, steps :| LeadsTo(c, states, steps, s);
    InitInv(c, states[0]);
    RunKeeps(c, states, steps, |steps|);
    RunFollowsWatched(c, states, steps, |steps|);
  }

  lemma ReachableInit(c: Config, s: Sys)
    requires Init(s)
    ensures Reachable(c, s)
  {
    assert LeadsTo(c, [s], [], s);
  }

  lemma ReachableStep(c: Config, s: Sys, step: Step, s': Sys)
    requires Reachable(c, s) && Enabled(c, s, step) && s' == Next(c, s, step)
    ensures Reachable(c, s')
  {
    var states, steps :| LeadsTo(c, states, steps, s);
    RunAppend(c, states, steps, step, s');
  }

  lemma RunAppend(c: Config, states: seq<Sys>, steps: seq<Step>, step: Step, s': Sys)
    requires IsRun(c, states, steps) && Init(states[0])
    requires Enabled(c, states[|steps|], step) && s' == Next(c, states[|steps|], step)
    ensures LeadsTo(c, states + [s'], steps + [step], s')
  {
    var ss, ts := states + [s'], steps + [step];
    forall k | 0 <= k < |ts| ensures Enabled(c, ss[k], ts[k]) && ss[k + 1] == Next(c, ss[k], ts[k]) {
      if k < |steps| { assert ss[k] == states[k] && ss[k + 1] == states[k + 1] && ts[k] == steps[k]; }
    }
  }

  lemma RoomForAll(c: Config, s: Sys, p: string)
    requires Reachable(c, s) && c.lim.lines >= 1 && |c.watched| <= MAX_FILES && Waits(c, s, p)
    ensures Enabled(c, s, Open(p))
  {
    ReachableInv(c, s);
    ProperSubsetIsSmaller(s.agent.value.files.Keys, c.watched, p);
  }

  // A run in which other files take all the room. First p is opened, its
  // position saved, a line written to it, and the agent crashes.

  const LINE: seq<Byte> := [65, NEWLINE]

  function Created(p: string): Sys {
    Sys(map[p := 1], map[1 := []], 0, map[], None, History([], [], [], [], []), map[])
  }

  function Watching(p: string): Sys {
    var tf := Tailed(1, 0, 0, [], None, false);
    var a := Agent(0, false, map[p := Position(1, 0)], None, map[p := tf], None, [], Ship.NewShip());
    Created(p).(agent := Some(a), past := History([], [], [], [Span(1, 0, 0)], []), seen := map[1 := 0])
  }

  function Crashed(p: string): Sys {
    Watching(p).(agent := None, saved := map[p := Position(1, 0)], data := map[1 := LINE])
  }

  function Started(p: string): Sys {
    Created(p).(agent := Some(Agent(0, false, map[], None, map[], None, [], Ship.NewShip())))
  }

  lemma StartedReachable(c: Config, p: string)
    ensures Reachable(c, Started(p))
  {
    var empty := Created(p).(dir := map[], data := map[]);
    ReachableInit(c, empty);
    ReachableStep(c, empty, Create(p, 1), Created(p));
    ReachableStep(c, Created(p), Start, Started(p));
  }

  lemma FirstOpen(c: Config, p: string)
    requires p in c.watched
    ensures Enabled(c, Started(p), Open(p)) && Next(c, Started(p), Open(p)) == Watching(p)
  {
  }

  lemma WatchingReachable(c: Config, p: string)
    requires p in c.watched
    ensures Reachable(c, Watching(p))
  {
    StartedReachable(c, p);
    FirstOpen(c, p);
    ReachableStep(c, Started(p), Open(p), Watching(p));
  }

  function Saved(p: string): Sys {
    Watching(p).(saved := map[p := Position(1, 0)])
  }

  lemma SavedReachable(c: Config, p: string)
    requires p in c.watched
    ensures Reachable(c, Saved(p))
  {
    WatchingReachable(c, p);
    var s := Watching(p);
    var a := s.agent.value;
    var marshalled := s.(agent := Some(a.(snapshot := Some(a.positions))));
    ReachableStep(c, s, Marshal, marshalled);
    ReachableStep(c, marshalled, Write(true), Saved(p));
  }

  lemma CrashedReachable(c: Config, p: string)
    requires p in c.watched
    ensures Reachable(c, Crashed(p))
  {
    SavedReachable(c, p);
    var grown := Saved(p).(data := map[1 := LINE]);
    assert [] + LINE == LINE;
    ReachableStep(c, Saved(p), Append(1, LINE), grown);
    ReachableStep(c, grown, Crash, Crashed(p));
  }

  /** The others, all different. */
  ghost predicate Others(c: Config, p: string, qs: seq<string>) {
    && (forall i :: 0 <= i < |qs| ==> qs[i] in c.watched && qs[i] != p)
    && (forall i, j :: 0 <= i < j < |qs| ==> qs[i] != qs[j])
  }

  lemma {:induction false} Pick(c: Config, p: string, w: set<string>, n: nat) returns (qs: seq<string>)
    requires w <= c.watched && p !in w && |w| >= n
    ensures |qs| == n && Others(c, p, qs) && forall i :: 0 <= i < n ==> qs[i] in w
  {
    if n == 0 {
      qs := [];
    } else {
      var q :| q in w;
      var rest := Pick(c, p, w - {q}, n - 1);
      qs := [q] + rest;
    }
  }

  /** The line of p is neither settled nor passed over, and p leads to it and has a saved position. */
  ghost predicate Unread(s: Sys, p: string) {
    && p in s.dir && s.dir[p] == 1 && 1 in s.data && s.data[1] == LINE && p in s.saved
    && !Done(s.past, 1, 0) && !Within(s.past.passed, 1, 0)
  }

  /** The first m others are there, the rest not yet. */
  ghost predicate Present(s: Sys, qs: seq<string>, m: nat)
    requires m <= |qs|
  {
    && (forall i :: 0 <= i < m ==> qs[i] in s.dir && s.dir[qs[i]] in s.data && s.dir[qs[i]] != 1)
    && (forall i :: m <= i < |qs| ==> qs[i] !in s.dir)
    && forall x :: x in s.data ==> x <= m + 1
  }

  lemma CreateOther(c: Config, s: Sys, p: string, qs: seq<string>, m: nat)
    requires Others(c, p, qs) && m < |qs| && Unread(s, p) && Present(s, qs, m) && s.agent.None?
    ensures Enabled(c, s, Create(qs[m], m + 2))
    ensures var s' := Next(c, s, Create(qs[m], m + 2));
            Unread(s', p) && Present(s', qs, m + 1) && s'.agent.None?
  {
  }

  lemma {:induction false} CreateOthers(c: Config, p: string, qs: seq<string>, m: nat) returns (s: Sys)
    requires p in c.watched && Others(c, p, qs) && m <= |qs|
    ensures Reachable(c, s) && Unread(s, p) && Present(s, qs, m) && s.agent.None?
  {
    if m == 0 {
      CrashedReachable(c, p);
      s := Crashed(p);
    } else {
      var prev := CreateOthers(c, p, qs, m - 1);
      CreateOther(c, prev, p, qs, m - 1);
      s := Next(c, prev, Create(qs[m - 1], m + 1));
      ReachableStep(c, prev, Create(qs[m - 1], m + 1), s);
    }
  }

  /** The first m others are followed, and nothing else. */
  ghost predicate Followed(s: Sys, qs: seq<string>, m: nat)
    requires m <= |qs|
  {
    && s.agent.Some? && s.agent.value.reading.None? && |s.agent.value.files| == m
    && forall q :: q in s.agent.value.files <==> q in qs[..m]
  }

  lemma FollowOther(c: Config, s: Sys, p: string, qs: seq<string>, m: nat)
    requires Others(c, p, qs) && m < |qs| <= MAX_FILES && Unread(s, p) && Present(s, qs, |qs|) && Followed(s, qs, m)
    ensures Enabled(c, s, Open(qs[m]))
    ensures var s' := Next(c, s, Open(qs[m]));
            Unread(s', p) && Present(s', qs, |qs|) && Followed(s', qs, m + 1)
  {
    var a, q := s.agent.value, qs[m];
    assert q !in qs[..m];
    OpenParts(s, a, q);
    OpenElsewhere(s, q, 1, 0);
    var s' := OpenFile(s, a, q);
    assert qs[..m + 1] == qs[..m] + [q];
    assert s'.agent.value.files.Keys == a.files.Keys + {q};
    assert Next(c, s, Open(q)) == s';
  }

  lemma {:induction false} FollowOthers(c: Config, p: string, qs: seq<string>, m: nat) returns (s: Sys)
    requires p in c.watched && Others(c, p, qs) && m <= |qs| <= MAX_FILES
    ensures Reachable(c, s) && Unread(s, p) && Present(s, qs, |qs|) && Followed(s, qs, m)
  {
    if m == 0 {
      var down := CreateOthers(c, p, qs, |qs|);
      s := Next(c, down, Start);
      ReachableStep(c, down, Start, s);
    } else {
      var prev := FollowOthers(c, p, qs, m - 1);
      FollowOther(c, prev, p, qs, m - 1);
      s := Next(c, prev, Open(qs[m - 1]));
      ReachableStep(c, prev, Open(qs[m - 1]), s);
    }
  }

  /** With more watched paths than may be followed, any of them can be kept waiting, in spite of a saved position. */
  lemma LimitBlocks(c: Config, p: string) returns (s: Sys)
    requires p in c.watched && |c.watched| > MAX_FILES
    ensures Reachable(c, s) && Unread(s, p) && Waits(c, s, p) && !Enabled(c, s, Open(p))
  {
    var w := c.watched - {p};
    assert c.watched == w + {p};
    var qs := Pick(c, p, w, MAX_FILES);
    s := FollowOthers(c, p, qs, MAX_FILES);
    assert qs[..MAX_FILES] == qs;
  }

  /** A watched path can always be opened if and only if no more paths are watched than may be followed. */
  lemma RoomIff(c: Config, p: string)
    requires c.lim.lines >= 1 && p in c.watched
    ensures (forall s :: Reachable(c, s) && Waits(c, s, p) ==> Enabled(c, s, Open(p))) <==> |c.watched| <= MAX_FILES
  {
    if |c.watched| <= MAX_FILES {
      forall s | Reachable(c, s) && Waits(c, s, p) ensures Enabled(c, s, Open(p)) { RoomForAll(c, s, p); }
    } else {
      var s := LimitBlocks(c, p);
      assert Reachable(c, s) && Waits(c, s, p) && !Enabled(c, s, Open(p));
    }
  }

  // ---- how long an agent has run ----

  function Elapsed(steps: seq<Step>): nat {
    if steps == [] then 0
    else Elapsed(steps[..|steps| - 1]) + match steps[|steps| - 1] case Tick(ms) => ms case _ => 0
  }

  function Uptime(s: Sys): int
    requires s.agent.Some?
  {
    s.now - s.agent.value.started
  }

  lemma UptimeStep(c: Config, s: Sys, step: Step)
    requires Enabled(c, s, step) && s.agent.Some? && step != Crash
    ensures var s' := Next(c, s, step);
            s'.agent.Some? && Uptime(s') == Uptime(s) + match step case Tick(ms) => ms case _ => 0
  {
    var a, s' := s.agent.value, Next(c, s, step);
    if step.Open? { assert s' == OpenFile(s, a, step.path); }
    else if step.Cut? { assert s' == CutStep(s, a); }
    else if step.End? { assert s' == EndStep(s, a); }
    else if step.Post? { assert s' == PostStep(c, s, a, step.verdict); }
  }

  lemma UptimeStart(c: Config, s: Sys)
    requires Enabled(c, s, Start)
    ensures Next(c, s, Start).agent.Some? && Uptime(Next(c, s, Start)) == 0
  {
  }

  lemma {:induction false} UptimeIs(c: Config, states: seq<Sys>, steps: seq<Step>, m: nat, k: nat)
    requires IsRun(c, states, steps) && m < k <= |steps| && steps[m] == Start
    requires forall n :: m < n < k ==> steps[n] != Crash
    ensures states[k].agent.Some? && Uptime(states[k]) == Elapsed(steps[m + 1..k])
    decreases k
  {
    if k == m + 1 {
      UptimeStart(c, states[m]);
    } else {
      UptimeIs(c, states, steps, m, k - 1);
      UptimeStep(c, states[k - 1], steps[k - 1]);
      assert steps[m + 1..k][..k - m - 2] == steps[m + 1..k - 1];
    }
  }

  /**
   In every run: an opening takes a file for new, and follows it from its end,
   if and only if its path has no position and at most two seconds have passed
   since the agent started.
   */
  lemma NewWhileYoung(c: Config, states: seq<Sys>, steps: seq<Step>, m: nat, k: nat, p: string)
    requires IsRun(c, states, steps) && m < k < |steps| && steps[m] == Start && steps[k] == Open(p)
    requires forall n :: m < n < k ==> steps[n] != Crash
    ensures states[k].agent.Some? && states[k + 1].agent.Some?
    ensures var a, s' := states[k].agent.value, states[k + 1];
            var tf := s'.agent.value.files[p];
            && (TakesForNew(states[k], a, p) <==> p !in a.positions && Elapsed(steps[m + 1..k]) <= 2000)
            && (TakesForNew(states[k], a, p) ==> tf.offset == |s'.data[tf.inode]|)
  {
    UptimeIs(c, states, steps, m, k);
    var a := states[k].agent.value;
    assert states[k + 1] == OpenFile(states[k], a, p);
  }
}
