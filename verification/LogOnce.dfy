/**
 When a line is sent only once: no byte of a file is cut into two entries as
 long as the file is never opened again below what was already cut from it.
 */
module LogOnce {
  import opened Prelude
  import opened LogLines
  import opened LogTail
  import opened LogPositions
  import opened LogDelivery
  import opened LogSafety
  import Ship = LogShip

  // ---- entries of one inode in order ----

  ghost predicate Below(es: seq<Entry>, i: nat, n: nat) {
    forall k :: 0 <= k < |es| && es[k].inode == i ==> es[k].hi <= n
  }

  ghost predicate Rising(es: seq<Entry>, i: nat) {
    forall j, k :: 0 <= j < k < |es| && es[j].inode == i && es[k].inode == i ==> es[j].hi <= es[k].lo
  }

  ghost predicate Apart(x: Entry, y: Entry) {
    x.inode == y.inode ==> x.hi <= y.lo || y.hi <= x.lo
  }

  ghost predicate AllApart(es: seq<Entry>, fs: seq<Entry>, i: nat) {
    forall j, k :: 0 <= j < |es| && 0 <= k < |fs| && es[j].inode == i ==> Apart(es[j], fs[k])
  }

  /** What of i was settled or is on its way does not overlap, and leaves in the order of the file. */
  ghost predicate InOrder(h: History, q: seq<Entry>, i: nat) {
    Rising(h.accepted + q, i) && Rising(h.refused + q, i) && AllApart(h.accepted, h.refused, i)
  }

  /** All of it ends at or before n. */
  ghost predicate CutBelow(h: History, q: seq<Entry>, i: nat, n: nat) {
    Below(h.accepted, i, n) && Below(h.refused, i, n) && Below(q, i, n)
  }

  lemma RisingSplit(a: seq<Entry>, b: seq<Entry>, i: nat)
    requires Rising(a + b, i)
    ensures Rising(a, i) && Rising(b, i)
    ensures forall j, k :: 0 <= j < |a| && 0 <= k < |b| && a[j].inode == i && b[k].inode == i ==> a[j].hi <= b[k].lo
  {
    var c := a + b;
    forall j, k | 0 <= j < k < |a| && a[j].inode == i && a[k].inode == i ensures a[j].hi <= a[k].lo {
      assert c[j] == a[j] && c[k] == a[k];
    }
    forall j, k | 0 <= j < k < |b| && b[j].inode == i && b[k].inode == i ensures b[j].hi <= b[k].lo {
      assert c[|a| + j] == b[j] && c[|a| + k] == b[k];
    }
    forall j, k | 0 <= j < |a| && 0 <= k < |b| && a[j].inode == i && b[k].inode == i ensures a[j].hi <= b[k].lo {
      assert c[j] == a[j] && c[|a| + k] == b[k];
    }
  }

  lemma RisingJoin(a: seq<Entry>, b: seq<Entry>, i: nat)
    requires Rising(a, i) && Rising(b, i)
    requires forall j, k :: 0 <= j < |a| && 0 <= k < |b| && a[j].inode == i && b[k].inode == i ==> a[j].hi <= b[k].lo
    ensures Rising(a + b, i)
  {
  }

  lemma RisingAppend(a: seq<Entry>, q: seq<Entry>, e: Entry, i: nat)
    requires Rising(a + q, i) && (e.inode == i ==> Below(a, i, e.lo) && Below(q, i, e.lo))
    ensures Rising(a + (q + [e]), i)
  {
    assert a + (q + [e]) == (a + q) + [e];
    RisingJoin(a + q, [e], i);
  }

  /** The queue without a stretch at its head. */
  lemma RisingDrop(a: seq<Entry>, head: seq<Entry>, rest: seq<Entry>, i: nat)
    requires Rising(a + (head + rest), i)
    ensures Rising(a + rest, i)
  {
    RisingSplit(a, head + rest, i);
    RisingSplit(head, rest, i);
    forall j, k | 0 <= j < |a| && 0 <= k < |rest| && a[j].inode == i && rest[k].inode == i
      ensures a[j].hi <= rest[k].lo
    {
      assert (head + rest)[|head| + k] == rest[k];
    }
    RisingJoin(a, rest, i);
  }

  /** The next piece of a file joins the queue. */
  lemma PieceInOrder(h: History, q: seq<Entry>, sent: seq<Entry>, i: nat)
    requires InOrder(h, q, i) && |sent| <= 1
    requires sent != [] && sent[0].inode == i ==> CutBelow(h, q, i, sent[0].lo)
    ensures InOrder(h, q + sent, i)
  {
    if sent == [] {
      assert q + sent == q;
    } else {
      assert sent == [sent[0]];
      RisingAppend(h.accepted, q, sent[0], i);
      RisingAppend(h.refused, q, sent[0], i);
    }
  }

  /** The head of the queue is accepted, refused or given up. */
  ghost predicate HeadLeaves(h: History, h': History, head: seq<Entry>) {
    || (h'.accepted == h.accepted + head && h'.refused == h.refused)
    || (h'.refused == h.refused + head && h'.accepted == h.accepted)
    || (h'.accepted == h.accepted && h'.refused == h.refused)
  }

  lemma HeadInOrder(h: History, h': History, head: seq<Entry>, rest: seq<Entry>, i: nat)
    requires InOrder(h, head + rest, i)
    requires HeadLeaves(h, h', head)
    ensures InOrder(h', rest, i)
  {
    RisingDrop(h.accepted, head, rest, i);
    RisingDrop(h.refused, head, rest, i);
    assert h.accepted + (head + rest) == h.accepted + head + rest;
    assert h.refused + (head + rest) == h.refused + head + rest;
    HeadApart(h.accepted, h.refused, head, rest, i);
    AllApartFlip(h.accepted, h.refused, i);
    HeadApart(h.refused, h.accepted, head, rest, i);
    AllApartFlip(h.refused + head, h.accepted, i);
  }

  lemma HeadApart(a: seq<Entry>, r: seq<Entry>, head: seq<Entry>, rest: seq<Entry>, i: nat)
    requires Rising(r + (head + rest), i) && AllApart(a, r, i)
    ensures AllApart(a + head, r, i)
  {
    RisingSplit(r, head + rest, i);
    forall j, k | 0 <= j < |a + head| && 0 <= k < |r| && (a + head)[j].inode == i ensures Apart((a + head)[j], r[k]) {
      if j < |a| {
        assert Apart(a[j], r[k]);
      } else {
        assert (head + rest)[j - |a|] == (a + head)[j];
      }
    }
  }

  lemma AllApartFlip(a: seq<Entry>, b: seq<Entry>, i: nat)
    requires AllApart(a, b, i)
    ensures AllApart(b, a, i)
  {
    forall j, k | 0 <= j < |b| && 0 <= k < |a| && b[j].inode == i ensures Apart(b[j], a[k]) {
      assert a[k].inode == i ==> Apart(a[k], b[j]);
    }
  }

  lemma HeadBelow(h: History, h': History, head: seq<Entry>, rest: seq<Entry>, i: nat, n: nat)
    requires CutBelow(h, head + rest, i, n)
    requires HeadLeaves(h, h', head)
    ensures CutBelow(h', rest, i, n)
  {
    var q := head + rest;
    forall k | 0 <= k < |head| && head[k].inode == i ensures head[k].hi <= n { assert q[k] == head[k]; }
    forall k | 0 <= k < |rest| && rest[k].inode == i ensures rest[k].hi <= n { assert q[|head| + k] == rest[k]; }
  }

  // ---- the state ----

  function QueueOf(s: Sys): seq<Entry> {
    if s.agent.Some? then Queue(s.agent.value) else []
  }

  /** How far the file followed at p was cut. */
  function CutTo(a: Agent, p: string): nat
    requires p in a.files
  {
    if a.reading.Some? && a.reading.value.path == p then a.reading.value.file.offset else a.files[p].offset
  }

  /** One path at most follows i, and everything cut from i lies before where it is. */
  ghost predicate Follows(a: Agent, h: History, i: nat) {
    && (a.reading.Some? ==> var r := a.reading.value; r.path in a.files && a.files[r.path].inode == r.file.inode)
    && (forall p, q :: p in a.files && q in a.files && a.files[p].inode == i && a.files[q].inode == i ==> p == q)
    && (forall p :: p in a.files && a.files[p].inode == i ==> CutBelow(h, Queue(a), i, CutTo(a, p)))
  }

  /** Nothing of i was ever cut, and nobody follows it. */
  ghost predicate Untouched(s: Sys, i: nat) {
    && NoneOf(s.past.accepted, i) && NoneOf(s.past.refused, i) && NoneOf(QueueOf(s), i)
    && (s.agent.Some? ==> forall p :: p in s.agent.value.files ==> s.agent.value.files[p].inode != i)
  }

  ghost predicate Once(s: Sys, i: nat) {
    && InOrder(s.past, QueueOf(s), i)
    && (s.agent.Some? ==> Follows(s.agent.value, s.past, i))
    && (i !in s.seen ==> Untouched(s, i))
  }

  /**
   The step does not open i again, or does so with nobody following it and at
   or after the end of everything settled or on its way.
   */
  ghost predicate NotAgain(s: Sys, step: Step, i: nat) {
    step.Open? && s.agent.Some? && step.path in s.dir && s.dir[step.path] == i && i in s.data && i in s.seen ==>
      var a := s.agent.value;
      && (forall p :: p in a.files ==> a.files[p].inode != i)
      && CutBelow(s.past, Queue(a), i, StartOffset(PosOf(a.positions, step.path), i, |s.data[i]|, s.now - a.started))
  }

  // ---- every step keeps it ----

  lemma OpenOnce(c: Config, s: Sys, p: string, i: nat)
    requires Enabled(c, s, Open(p)) && Once(s, i) && NotAgain(s, Open(p), i)
    ensures Once(Next(c, s, Open(p)), i)
  {
    var a := s.agent.value;
    var s' := OpenFile(s, a, p);
    var a' := s'.agent.value;
    assert Queue(a') == Queue(a);
    assert s'.past.accepted == s.past.accepted && s'.past.refused == s.past.refused;
    forall q | q in a'.files && a'.files[q].inode == i ensures CutBelow(s'.past, Queue(a'), i, CutTo(a', q)) {
      if q != p { assert CutBelow(s.past, Queue(a), i, CutTo(a, q)); }
    }
  }

  lemma BeginOnce(c: Config, s: Sys, p: string, i: nat)
    requires Inv(c, s) && Enabled(c, s, Begin(p)) && Once(s, i)
    ensures Once(Next(c, s, Begin(p)), i)
  {
    var a := s.agent.value;
    BeginHolds(p, a.files[p], s.data[a.files[p].inode]);
    var r := BeginRead(p, a.files[p], s.data[a.files[p].inode]);
    var a' := a.(reading := Some(r));
    assert Next(c, s, Begin(p)) == s.(agent := Some(a'));
    assert Queue(a') == Queue(a);
    forall q | q in a'.files && a'.files[q].inode == i ensures CutBelow(s.past, Queue(a'), i, CutTo(a', q)) {
      assert CutTo(a', q) == CutTo(a, q);
    }
  }

  /** A piece of the file in hand was cut: its entry, if any, starts where the file was cut to. */
  ghost predicate Advances(a: Agent, a': Agent, sent: seq<Entry>, hi: nat) {
    && a.reading.Some?
    && var r := a.reading.value;
    && |sent| <= 1 && r.file.offset <= hi
    && (sent != [] ==> sent[0].inode == r.file.inode && sent[0].lo == r.file.offset && sent[0].hi == hi)
    && a' == a.(reading := a'.reading, files := a'.files, positions := a'.positions)
    && (a'.reading.Some? ==>
          && a'.reading.value.path == r.path && a'.reading.value.file.inode == r.file.inode
          && r.path in a'.files)
    && (forall p :: p in a'.files ==> p in a.files && a'.files[p].inode == a.files[p].inode
                                      && CutTo(a', p) == if p == r.path then hi else CutTo(a, p))
  }

  /** The file in hand is the one followed at its path. */
  ghost predicate HandFollowed(a: Agent) {
    && a.reading.Some?
    && var r := a.reading.value;
    r.path in a.files && a.files[r.path].inode == r.file.inode
  }

  lemma CutAdvances(a: Agent, content: seq<Byte>)
    requires HandFollowed(a) && Holds(a.reading.value, content) && HasLine(a.reading.value)
    ensures var (r, sent) := CutLine(a.reading.value);
            Advances(a, a.(reading := Some(r)), sent, r.file.offset)
  {
    CutLineHolds(a.reading.value, content);
  }

  lemma EndAdvances(a: Agent, content: seq<Byte>, now: int, present: bool)
    requires HandFollowed(a) && Holds(a.reading.value, content) && !HasLine(a.reading.value)
    ensures var r := a.reading.value;
            var f := EndRead(r, now);
            Advances(a, Finish(a, r.path, f, present), f.sent, f.file.offset)
  {
    EndReadHolds(a.reading.value, content, now);
  }

  lemma PieceOnce(s: Sys, a: Agent, a': Agent, sent: seq<Entry>, hi: nat, i: nat)
    requires s.agent == Some(a) && Once(s, i) && Advances(a, a', sent, hi)
    ensures Once(Sent(s, a', sent, a.reading.value.file.inode, a.reading.value.file.offset, hi), i)
  {
    var r := a.reading.value;
    var s' := Sent(s, a', sent, r.file.inode, r.file.offset, hi);
    var b := s'.agent.value;
    var q := Queue(a);
    assert Queue(b) == q + sent;
    assert r.file.inode == i ==> CutBelow(s.past, q, i, CutTo(a, r.path));
    PieceInOrder(s.past, q, sent, i);
    forall p | p in b.files && b.files[p].inode == i ensures CutBelow(s'.past, q + sent, i, CutTo(b, p)) {
      assert CutBelow(s.past, q, i, CutTo(a, p));
      assert CutTo(b, p) == CutTo(a', p);
      if p != r.path && sent != [] { assert sent[0].inode != i; }
      BelowAppend(q, sent, i, CutTo(a, p), CutTo(b, p));
    }
    if i !in s.seen { NoneOfConcat(q, sent, i); }
  }

  lemma BelowAppend(q: seq<Entry>, sent: seq<Entry>, i: nat, n: nat, m: nat)
    requires Below(q, i, n) && n <= m && |sent| <= 1 && (sent != [] && sent[0].inode == i ==> sent[0].hi <= m)
    ensures Below(q + sent, i, m)
  {
  }

  lemma CutOnce(c: Config, s: Sys, i: nat)
    requires Inv(c, s) && Enabled(c, s, Cut) && Once(s, i)
    ensures Once(Next(c, s, Cut), i)
  {
    var a := s.agent.value;
    var r := a.reading.value;
    var (r', sent) := CutLine(r);
    CutAdvances(a, s.data[r.file.inode]);
    PieceOnce(s, a, a.(reading := Some(r')), sent, r'.file.offset, i);
    assert Next(c, s, Cut) == CutStep(s, a);
  }

  lemma EndOnce(c: Config, s: Sys, i: nat)
    requires Inv(c, s) && Enabled(c, s, End) && Once(s, i)
    ensures Once(Next(c, s, End), i)
  {
    var a := s.agent.value;
    var r := a.reading.value;
    var f := EndRead(r, s.now);
    EndAdvances(a, s.data[r.file.inode], s.now, r.path in s.dir);
    PieceOnce(s, a, Finish(a, r.path, f, r.path in s.dir), f.sent, f.file.offset, i);
    assert Next(c, s, End) == EndStep(s, a);
  }

  /** The head of the queue left it. */
  lemma PostedOnce(s: Sys, s': Sys, a: Agent, a': Agent, head: seq<Entry>, i: nat)
    requires s.agent == Some(a) && s'.agent == Some(a') && Once(s, i) && s'.seen == s.seen
    requires Queue(a) == head + Queue(a') && HeadLeaves(s.past, s'.past, head)
    requires a'.files == a.files && a'.reading == a.reading
    ensures Once(s', i)
  {
    HeadInOrder(s.past, s'.past, head, Queue(a'), i);
    forall p | p in a'.files && a'.files[p].inode == i ensures CutBelow(s'.past, Queue(a'), i, CutTo(a', p)) {
      assert CutTo(a', p) == CutTo(a, p);
      HeadBelow(s.past, s'.past, head, Queue(a'), i, CutTo(a, p));
    }
    if i !in s.seen {
      NoneOfConcat(head, Queue(a'), i);
      NoneOfConcat(s.past.accepted, head, i);
      NoneOfConcat(s.past.refused, head, i);
    }
  }

  lemma PostOnce(c: Config, s: Sys, v: Ship.Verdict, i: nat)
    requires Inv(c, s) && Enabled(c, s, Post(v)) && Once(s, i)
    ensures Once(Next(c, s, Post(v)), i)
  {
    var a := s.agent.value;
    var a' := a.(ship := if v.Abandoned? then Ship.Resume(a.ship, c.lim) else Ship.Settle(a.ship));
    var s' := PostStep(c, s, a, v);
    assert s'.agent == Some(a') && s'.seen == s.seen;
    PostQueue(c, a, a', v);
    PostedOnce(s, s', a, a', a.ship.batch, i);
    assert Next(c, s, Post(v)) == s';
  }

  /** Steps that move entries along, mark files or save. */
  lemma MemoryOnce(s: Sys, a: Agent, a': Agent, i: nat)
    requires s.agent == Some(a) && Once(s, i)
    requires Queue(a') == Queue(a) && a'.reading == a.reading
    requires a'.files.Keys == a.files.Keys && forall p :: p in a.files ==>
               a'.files[p] == a.files[p].(gone := a'.files[p].gone)
    ensures Once(s.(agent := Some(a')), i)
  {
    forall p | p in a'.files && a'.files[p].inode == i ensures CutBelow(s.past, Queue(a'), i, CutTo(a', p)) {
      assert CutTo(a', p) == CutTo(a, p);
    }
  }

  lemma MarkOnce(c: Config, s: Sys, step: Step, i: nat)
    requires Enabled(c, s, step) && Once(s, i) && (step.Scan? || step.Unmatch?)
    ensures Once(Next(c, s, step), i)
  {
    var a := s.agent.value;
    var a' := AgentNext(c, s, a, step);
    MarkIsMemory(c, s, a, step);
    assert Queue(a') == Queue(a);
    MemoryOnce(s, a, a', i);
    assert Next(c, s, step) == s.(agent := Some(a'));
  }

  lemma ShipOnce(c: Config, s: Sys, step: Step, i: nat)
    requires Inv(c, s) && Enabled(c, s, step) && Once(s, i)
    requires step.Recv? || step.Timer? || step.Ack? || step.Cancel? || step.Marshal?
    ensures Once(Next(c, s, step), i)
  {
    var a := s.agent.value;
    var a' := AgentNext(c, s, a, step);
    QueueStays(c, s, a, step);
    MemoryOnce(s, a, a', i);
    assert Next(c, s, step) == s.(agent := Some(a'));
  }

  lemma QueueStays(c: Config, s: Sys, a: Agent, step: Step)
    requires Ship.Valid(a.ship, c.lim) && AgentEnabled(c, s, a, step)
    requires step.Recv? || step.Timer? || step.Ack? || step.Cancel? || step.Marshal?
    ensures var a' := AgentNext(c, s, a, step);
            Queue(a') == Queue(a) && a'.reading == a.reading && a'.files == a.files
  {
    var a' := AgentNext(c, s, a, step);
    if step.Recv? { RecvQueue(c, a, a', step.size); }
    if step.Ack? { AckQueue(c, a); }
  }

  lemma RestOnce(c: Config, s: Sys, step: Step, i: nat)
    requires Enabled(c, s, step) && Once(s, i)
    requires step.Append? || step.Create? || step.Rename? || step.Unlink? || step.Tick? || step.Write?
    ensures Once(Next(c, s, step), i)
  {
    var s' := Next(c, s, step);
    if s.agent.Some? {
      var a, a' := s.agent.value, s'.agent.value;
      assert Queue(a') == Queue(a);
      MemoryOnce(s, a, a', i);
    }
  }

  lemma ProcessOnce(c: Config, s: Sys, step: Step, i: nat)
    requires Enabled(c, s, step) && Once(s, i) && (step.Start? || step.Crash?)
    ensures Once(Next(c, s, step), i)
  {
    var q := QueueOf(s);
    RisingSplit(s.past.accepted, q, i);
    RisingSplit(s.past.refused, q, i);
    assert QueueOf(Next(c, s, step)) == [];
    assert s.past.accepted + [] == s.past.accepted && s.past.refused + [] == s.past.refused;
  }

  lemma ReadingOnce(c: Config, s: Sys, step: Step, i: nat)
    requires Inv(c, s) && Enabled(c, s, step) && Once(s, i) && (step.Begin? || step.Cut? || step.End?)
    ensures Once(Next(c, s, step), i)
  {
    if step.Begin? { BeginOnce(c, s, step.path, i); }
    else if step.Cut? { CutOnce(c, s, i); }
    else { EndOnce(c, s, i); }
  }

  lemma StepOnce(c: Config, s: Sys, step: Step, i: nat)
    requires Inv(c, s) && Enabled(c, s, step) && Once(s, i) && NotAgain(s, step, i)
    ensures Once(Next(c, s, step), i)
  {
    if step.Open? { OpenOnce(c, s, step.path, i); }
    else if step.Begin? || step.Cut? || step.End? { ReadingOnce(c, s, step, i); }
    else if step.Post? { PostOnce(c, s, step.verdict, i); }
    else if step.Start? || step.Crash? { ProcessOnce(c, s, step, i); }
    else if step.Append? || step.Create? || step.Rename? || step.Unlink? || step.Tick? || step.Write? {
      RestOnce(c, s, step, i);
    }
    else if step.Scan? || step.Unmatch? { MarkOnce(c, s, step, i); }
    else { ShipOnce(c, s, step, i); }
  }

  lemma {:induction false} RunKeepsOnce(c: Config, states: seq<Sys>, steps: seq<Step>, k: nat, i: nat)
    requires IsRun(c, states, steps) && Init(states[0]) && c.lim.lines >= 1 && k <= |steps|
    requires forall m :: 0 <= m < k ==> NotAgain(states[m], steps[m], i)
    ensures Once(states[k], i)
  {
    if k > 0 {
      RunKeepsOnce(c, states, steps, k - 1, i);
      InitInv(c, states[0]);
      RunKeeps(c, states, steps, k - 1);
      StepOnce(c, states[k - 1], steps[k - 1], i);
    }
  }

  /**
   In every run, over crashes and restarts: as long as no reopening of a file
   goes back before the end of what was cut from it and settled or is on its
   way, no byte of it is in two entries, accepted, refused or on their way.
   */
  lemma SentOnce(c: Config, states: seq<Sys>, steps: seq<Step>, k: nat, i: nat, x: nat, y: nat)
    requires IsRun(c, states, steps) && Init(states[0]) && c.lim.lines >= 1 && k <= |steps|
    requires forall m :: 0 <= m < k ==> NotAgain(states[m], steps[m], i)
    requires var es := states[k].past.accepted + states[k].past.refused + QueueOf(states[k]);
             x < y < |es| && es[x].inode == i && es[y].inode == i
    ensures var es := states[k].past.accepted + states[k].past.refused + QueueOf(states[k]);
            es[x].hi <= es[y].lo || es[y].hi <= es[x].lo
  {
    RunKeepsOnce(c, states, steps, k, i);
    var h, q := states[k].past, QueueOf(states[k]);
    RisingSplit(h.accepted, q, i);
    RisingSplit(h.refused, q, i);
    InOneList(h.accepted, h.refused, q, i, x, y);
  }

  ghost predicate OpensFile(s: Sys, step: Step, i: nat) {
    step.Open? && step.path in s.dir && s.dir[step.path] == i
  }

  ghost predicate OpenedBefore(states: seq<Sys>, steps: seq<Step>, k: nat, i: nat)
    requires k <= |steps| <= |states|
  {
    exists m :: 0 <= m < k && OpensFile(states[m], steps[m], i)
  }

  /** The m-th step adds i to the known inodes exactly when it opens it. */
  ghost predicate SeenFollows(states: seq<Sys>, steps: seq<Step>, m: nat, i: nat)
    requires m < |steps| < |states|
  {
    i in states[m + 1].seen <==> i in states[m].seen || OpensFile(states[m], steps[m], i)
  }

  lemma {:induction false} SeenByOpening(states: seq<Sys>, steps: seq<Step>, k: nat, i: nat)
    requires k <= |steps| < |states| && i !in states[0].seen
    requires forall m :: 0 <= m < k ==> SeenFollows(states, steps, m, i)
    ensures i in states[k].seen <==> OpenedBefore(states, steps, k, i)
  {
    if k > 0 {
      SeenByOpening(states, steps, k - 1, i);
      assert SeenFollows(states, steps, k - 1, i);
      OneMoreStep(states, steps, k, i);
    }
  }

  lemma SeenIffOpened(c: Config, states: seq<Sys>, steps: seq<Step>, k: nat, i: nat)
    requires IsRun(c, states, steps) && Init(states[0]) && k <= |steps|
    ensures i in states[k].seen <==> OpenedBefore(states, steps, k, i)
  {
    forall m | 0 <= m < k ensures SeenFollows(states, steps, m, i) {
      SeenStep(c, states[m], steps[m], i);
    }
    SeenByOpening(states, steps, k, i);
  }

  lemma SeenStep(c: Config, s: Sys, step: Step, i: nat)
    requires Enabled(c, s, step)
    ensures i in Next(c, s, step).seen <==> i in s.seen || OpensFile(s, step, i)
  {
  }

  lemma OneMoreStep(states: seq<Sys>, steps: seq<Step>, k: nat, i: nat)
    requires 0 < k <= |steps| <= |states|
    ensures OpenedBefore(states, steps, k, i) <==>
            OpenedBefore(states, steps, k - 1, i) || OpensFile(states[k - 1], steps[k - 1], i)
  {
  }

  /** A file that is opened only once is sent only once. */
  lemma OpenedOnceSentOnce(c: Config, states: seq<Sys>, steps: seq<Step>, k: nat, i: nat, x: nat, y: nat)
    requires IsRun(c, states, steps) && Init(states[0]) && c.lim.lines >= 1 && k <= |steps|
    requires forall m, n :: 0 <= m < n < k ==> !(OpensFile(states[m], steps[m], i) && OpensFile(states[n], steps[n], i))
    requires var es := states[k].past.accepted + states[k].past.refused + QueueOf(states[k]);
             x < y < |es| && es[x].inode == i && es[y].inode == i
    ensures var es := states[k].past.accepted + states[k].past.refused + QueueOf(states[k]);
            es[x].hi <= es[y].lo || es[y].hi <= es[x].lo
  {
    forall m | 0 <= m < k ensures NotAgain(states[m], steps[m], i) {
      SeenIffOpened(c, states, steps, m, i);
      assert OpensFile(states[m], steps[m], i) ==> i !in states[m].seen;
    }
    SentOnce(c, states, steps, k, i, x, y);
  }

  lemma InOneList(a: seq<Entry>, r: seq<Entry>, q: seq<Entry>, i: nat, x: nat, y: nat)
    requires Rising(a + q, i) && Rising(r + q, i) && AllApart(a, r, i)
    requires x < y < |a + r + q| && (a + r + q)[x].inode == i && (a + r + q)[y].inode == i
    ensures Apart((a + r + q)[x], (a + r + q)[y])
  {
    var es := a + r + q;
    var n := |a| + |r|;
    if y < |a| {
      assert (a + q)[x] == es[x] && (a + q)[y] == es[y];
    } else if y < n {
      if x < |a| { assert Apart(a[x], r[y - |a|]); }
      else { assert (r + q)[x - |a|] == es[x] && (r + q)[y - |a|] == es[y]; }
    } else if x < |a| {
      assert (a + q)[x] == es[x] && (a + q)[y - |r|] == es[y];
    } else {
      assert (r + q)[x - |a|] == es[x] && (r + q)[y - |a|] == es[y];
    }
  }
}
