/**
 What is under way can always be finished: wherever a run stands, as long as
 the agent is not told to stop, the shipper can deliver everything that was cut
 and the saver can put the resulting positions on disk.
 */
module LogDrain {
  import opened Prelude
  import opened LogTail
  import opened LogPositions
  import opened LogDelivery
  import opened LogSafety
  import opened LogProgress
  import Once = LogOnce
  import Ship = LogShip

  ghost predicate Active(s: Sys) {
    s.agent.Some? && !s.agent.value.cancelled
  }

  /** Steps of the shipper with a server that accepts everything. */
  predicate Ships(step: Step) {
    step.Recv? || step.Timer? || step == Post(Ship.Accepted) || step.Ack?
  }

  /** What the shipper can do next; nothing when nothing is under way. */
  function Scheduled(a: Agent, size: Entry -> nat): Option<Step> {
    match a.ship.phase
    case Posting => Some(Post(Ship.Accepted))
    case Acking => Some(Ack)
    case Collecting =>
      if a.channel != [] then Some(Recv(size(a.channel[0])))
      else if a.ship.batch != [] then Some(Timer)
      else None
  }

  /** How much is left to do. */
  function Load(a: Agent): nat {
    5 * |a.channel| + 4 * |a.ship.held| + 3 * |a.ship.batch| + |a.ship.acking| +
    (if a.ship.phase.Posting? then 0 else 1)
  }

  /** Entries move from the queue to the accepted ones, in order, and no position will end up elsewhere. */
  ghost predicate Toward(s: Sys, s': Sys) {
    && s.agent.Some? && s'.agent.Some?
    && var a, a' := s.agent.value, s'.agent.value;
    && s' == s.(agent := Some(a'), past := s.past.(accepted := s'.past.accepted))
    && a' == a.(positions := a'.positions, channel := a'.channel, ship := a'.ship)
    && s'.past.accepted + Queue(a') == s.past.accepted + Queue(a)
    && forall p :: DueAt(a', p) == DueAt(a, p)
  }

  /** Where the position of p will be when everything under way is acknowledged. */
  function DueAt(a: Agent, p: string): Option<Position> {
    Due(Trail(a), PosOf(a.positions, p), p)
  }

  lemma TowardOn(s: Sys, t: Sys, u: Sys)
    requires Toward(s, t) && Toward(t, u)
    ensures Toward(s, u)
  {
    forall p ensures DueAt(u.agent.value, p) == DueAt(s.agent.value, p) {
      assert DueAt(t.agent.value, p) == DueAt(s.agent.value, p);
    }
  }

  lemma RecvToward(c: Config, s: Sys, a: Agent, a': Agent, size: nat)
    requires s.agent == Some(a) && Ship.Valid(a.ship, c.lim) && a.ship.phase.Collecting? && a.channel != []
    requires a' == a.(channel := a.channel[1..], ship := Ship.Receive(a.ship, c.lim, a.channel[0], size))
    ensures Toward(s, s.(agent := Some(a'))) && Load(a') < Load(a)
  {
    RecvQueue(c, a, a', size);
    assert Trail(a') == Trail(a);
  }

  lemma TimerToward(c: Config, s: Sys, a: Agent, a': Agent)
    requires s.agent == Some(a) && a.ship.phase.Collecting? && a.ship.batch != []
    requires a' == a.(ship := Ship.TimerFires(a.ship))
    ensures Toward(s, s.(agent := Some(a'))) && Load(a') < Load(a)
  {
    assert Queue(a') == Queue(a) && Trail(a') == Trail(a);
  }

  lemma PostToward(s: Sys, a: Agent, a': Agent)
    requires s.agent == Some(a) && a.ship.acking == [] && a.ship.batch != [] && a.ship.phase.Posting?
    requires a' == a.(ship := Ship.Settle(a.ship))
    ensures Toward(s, s.(agent := Some(a'), past := s.past.(accepted := s.past.accepted + a.ship.batch)))
    ensures Load(a') < Load(a)
  {
    PostTrail(a, a');
    Ship.SettlePending(a.ship);
    assert Queue(a) == a.ship.batch + Queue(a');
    Ship.Reassociate(s.past.accepted, a.ship.batch, Queue(a'));
  }

  lemma AckToward(c: Config, s: Sys, a: Agent, a': Agent)
    requires s.agent == Some(a) && Ship.Valid(a.ship, c.lim) && a.ship.phase.Acking? && a.ship.acking[0].inode != 0
    requires var e := a.ship.acking[0];
             a' == a.(positions := SetPos(a.positions, e.path, Position(e.inode, e.hi)),
               ship := Ship.AckOne(a.ship, c.lim))
    ensures Toward(s, s.(agent := Some(a'))) && Load(a') < Load(a)
  {
    var e := a.ship.acking[0];
    AckTrail(c, a, a');
    AckQueue(c, a);
    assert Queue(a') == Queue(a);
    forall p ensures DueAt(a', p) == DueAt(a, p) {
      SetPosAt(a.positions, e.path, Position(e.inode, e.hi), p);
      LastOfTail(e, Trail(a'), p);
    }
  }

  /** The step is enabled, leads on, and there is less to do after it. */
  ghost predicate Helps(c: Config, s: Sys, step: Step) {
    && Ships(step) && s.agent.Some? && Enabled(c, s, step) && Toward(s, Next(c, s, step))
    && Load(Next(c, s, step).agent.value) < Load(s.agent.value)
  }

  lemma PostHelps(c: Config, s: Sys)
    requires Inv(c, s) && Active(s) && s.agent.value.ship.phase.Posting?
    ensures Helps(c, s, Post(Ship.Accepted))
  {
    var a := s.agent.value;
    var a' := a.(ship := Ship.Settle(a.ship));
    PostToward(s, a, a');
    assert Next(c, s, Post(Ship.Accepted)) ==
      s.(agent := Some(a'), past := s.past.(accepted := s.past.accepted + a.ship.batch));
  }

  lemma AckHelps(c: Config, s: Sys)
    requires Inv(c, s) && Active(s) && s.agent.value.ship.phase.Acking?
    ensures Helps(c, s, Ack)
  {
    var a := s.agent.value;
    var a' := AgentNext(c, s, a, Ack);
    assert a.ship.acking[0].inode in s.data;
    AckToward(c, s, a, a');
    assert Next(c, s, Ack) == s.(agent := Some(a'));
  }

  lemma RecvHelps(c: Config, s: Sys, size: nat)
    requires Inv(c, s) && Active(s) && s.agent.value.ship.phase.Collecting? && s.agent.value.channel != []
    ensures Helps(c, s, Recv(size))
  {
    var a := s.agent.value;
    var a' := AgentNext(c, s, a, Recv(size));
    RecvToward(c, s, a, a', size);
    assert Next(c, s, Recv(size)) == s.(agent := Some(a'));
  }

  lemma TimerHelps(c: Config, s: Sys)
    requires Active(s) && s.agent.value.ship.phase.Collecting? && s.agent.value.ship.batch != []
    ensures Helps(c, s, Timer)
  {
    var a := s.agent.value;
    var a' := AgentNext(c, s, a, Timer);
    TimerToward(c, s, a, a');
    assert Next(c, s, Timer) == s.(agent := Some(a'));
  }

  lemma ScheduledHelps(c: Config, s: Sys, size: Entry -> nat)
    requires Inv(c, s) && Active(s) && Scheduled(s.agent.value, size).Some?
    ensures Helps(c, s, Scheduled(s.agent.value, size).value)
  {
    var a := s.agent.value;
    match a.ship.phase
    case Posting => PostHelps(c, s);
    case Acking => AckHelps(c, s);
    case Collecting => if a.channel != [] { RecvHelps(c, s, size(a.channel[0])); } else { TimerHelps(c, s); }
  }

  /** Nothing to schedule means that nothing is under way. */
  lemma NothingLeft(c: Config, a: Agent, size: Entry -> nat)
    requires Ship.Valid(a.ship, c.lim) && Scheduled(a, size).None?
    ensures Queue(a) == [] && Trail(a) == []
  {
  }

  lemma RunOn(c: Config, s: Sys, step: Step, states: seq<Sys>, steps: seq<Step>)
    requires Enabled(c, s, step) && IsRun(c, states, steps) && states[0] == Next(c, s, step)
    ensures IsRun(c, [s] + states, [step] + steps)
  {
    var us, vs := [s] + states, [step] + steps;
    forall k | 0 <= k < |vs| ensures Enabled(c, us[k], vs[k]) && us[k + 1] == Next(c, us[k], vs[k]) {
      if k > 0 { assert us[k] == states[k - 1] && vs[k] == steps[k - 1] && us[k + 1] == states[k]; }
    }
  }

  /**
   Whatever the sizes of the encoded entries, the shipper can finish: then
   everything that was under way was accepted, once and in order, and every
   position is at the end of the last entry of its path.
   */
  lemma {:induction false} Drains(c: Config, s: Sys, size: Entry -> nat) returns (states: seq<Sys>, steps: seq<Step>)
    requires Inv(c, s) && Active(s)
    ensures IsRun(c, states, steps) && states[0] == s && forall k :: 0 <= k < |steps| ==> Ships(steps[k])
    ensures Inv(c, states[|steps|]) && Toward(s, states[|steps|]) && Trail(states[|steps|].agent.value) == []
    decreases Load(s.agent.value)
  {
    var a := s.agent.value;
    if Scheduled(a, size).None? {
      NothingLeft(c, a, size);
      states, steps := [s], [];
    } else {
      var step := Scheduled(a, size).value;
      ScheduledHelps(c, s, size);
      StepKeeps(c, s, step);
      var s1 := Next(c, s, step);
      states, steps := Drains(c, s1, size);
      TowardOn(s, s1, states[|steps|]);
      RunOn(c, s, step, states, steps);
      states, steps := [s] + states, [step] + steps;
    }
  }

  // ---- and be saved ----

  lemma RunJoin(c: Config, us: seq<Sys>, ks: seq<Step>, vs: seq<Sys>, ls: seq<Step>)
    requires IsRun(c, us, ks) && IsRun(c, vs, ls) && us[|ks|] == vs[0]
    ensures IsRun(c, us + vs[1..], ks + ls) && (us + vs[1..])[0] == us[0] && (us + vs[1..])[|ks + ls|] == vs[|ls|]
  {
    var ws, ms := us + vs[1..], ks + ls;
    forall n | 0 <= n <= |ls| ensures ws[|ks| + n] == vs[n] { }
    forall n | 0 <= n < |ms| ensures Enabled(c, ws[n], ms[n]) && ws[n + 1] == Next(c, ws[n], ms[n]) {
      if n >= |ks| {
        var m := n - |ks|;
        assert ms[n] == ls[m] && ws[n] == vs[m] && ws[n + 1] == vs[m + 1];
      }
    }
  }

  /** Steps of the saver that succeed. */
  predicate Saves(step: Step) {
    step.Marshal? || step == Write(true)
  }

  /** The positions in memory are on disk. */
  ghost predicate Saved(s: Sys, s': Sys) {
    && s.agent.Some?
    && s' == s.(saved := s.agent.value.positions, agent := Some(s.agent.value.(snapshot := None)))
  }

  lemma MarshalAndWrite(c: Config, s: Sys) returns (states: seq<Sys>, steps: seq<Step>)
    requires s.agent.Some? && s.agent.value.snapshot.None?
    ensures IsRun(c, states, steps) && states[0] == s && forall k :: 0 <= k < |steps| ==> Saves(steps[k])
    ensures Saved(s, states[|steps|])
  {
    var a := s.agent.value;
    var t := s.(agent := Some(a.(snapshot := Some(a.positions))));
    var u := s.(saved := a.positions, agent := Some(a.(snapshot := None)));
    assert Enabled(c, s, Marshal) && Next(c, s, Marshal) == t;
    assert Enabled(c, t, Write(true)) && Next(c, t, Write(true)) == u;
    states, steps := [s, t, u], [Marshal, Write(true)];
  }

  /** The saver can finish a save under way and make another. */
  lemma CanSave(c: Config, s: Sys) returns (states: seq<Sys>, steps: seq<Step>)
    requires s.agent.Some?
    ensures IsRun(c, states, steps) && states[0] == s && forall k :: 0 <= k < |steps| ==> Saves(steps[k])
    ensures Saved(s, states[|steps|])
  {
    var a := s.agent.value;
    if a.snapshot.None? {
      states, steps := MarshalAndWrite(c, s);
    } else {
      var t := s.(saved := a.snapshot.value, agent := Some(a.(snapshot := None)));
      assert Enabled(c, s, Write(true)) && Next(c, s, Write(true)) == t;
      states, steps := MarshalAndWrite(c, t);
      RunOn(c, s, Write(true), states, steps);
      states, steps := [s] + states, [Write(true)] + steps;
    }
  }

  /** What can be reached from s by the shipper and the saver alone. */
  ghost predicate Finishes(s: Sys, s': Sys) {
    && s.agent.Some? && s'.agent.Some?
    && var a, a' := s.agent.value, s'.agent.value;
    && s'.past == s.past.(accepted := s.past.accepted + Queue(a))
    && Trail(a') == [] && a'.files == a.files && a'.reading == a.reading && s'.data == s.data && s'.dir == s.dir
    && forall p :: PosOf(s'.saved, p) == DueAt(a, p)
  }

  lemma FinishesBoth(s: Sys, d: Sys, s': Sys)
    requires Toward(s, d) && Trail(d.agent.value) == [] && Saved(d, s')
    ensures Finishes(s, s')
  {
    var a, b := s.agent.value, d.agent.value;
    assert Queue(b) == [];
    assert d.past.accepted + [] == d.past.accepted;
    assert Trail(s'.agent.value) == Trail(b);
    forall p ensures PosOf(s'.saved, p) == DueAt(a, p) {
      assert DueAt(b, p) == DueAt(a, p);
    }
  }

  /** If the saved position of p is in the file followed there, nothing to send lies between it and what was cut. */
  ghost predicate NothingBetween(s: Sys, p: string) {
    s.agent.Some? && p in s.agent.value.files && p in s.saved && s.saved[p].inode == s.agent.value.files[p].inode ==>
      Idle(s.past, s.saved[p].inode, s.saved[p].offset, Once.CutTo(s.agent.value, p))
  }

  lemma RestedBetween(s: Sys, s': Sys, p: string)
    requires Finishes(s, s') && RestsAt(s.agent.value, s.past, p)
    ensures NothingBetween(s', p)
  {
    var a, a' := s.agent.value, s'.agent.value;
    if p in a'.files && p in s'.saved && s'.saved[p].inode == a'.files[p].inode {
      assert DueAt(a, p) == PosOf(s'.saved, p) == Some(s'.saved[p]);
      assert Once.CutTo(a', p) == Once.CutTo(a, p);
    }
  }

  /**
   Wherever a run stands with an agent that is not told to stop, the shipper and
   the saver can go on to where everything that was cut has been accepted, once
   and in order, and the state file has, for every path, the end of its last
   entry; behind that, as far as the same file was cut, nothing is left to send.
   */
  lemma EverythingCanBeDelivered(
    c: Config, before: seq<Sys>, taken: seq<Step>, k: nat, size: Entry -> nat)
    returns (states: seq<Sys>, steps: seq<Step>)
    requires IsRun(c, before, taken) && Init(before[0]) && c.lim.lines >= 1 && k <= |taken| && Active(before[k])
    ensures IsRun(c, states, steps) && states[0] == before[k]
    ensures forall n :: 0 <= n < |steps| ==> Ships(steps[n]) || Saves(steps[n])
    ensures Finishes(before[k], states[|steps|])
    ensures forall p :: NothingBetween(states[|steps|], p)
  {
    InitInv(c, before[0]);
    RunKeeps(c, before, taken, k);
    RunSettles(c, before, taken, k);
    var us, ks := Drains(c, before[k], size);
    var vs, ls := CanSave(c, us[|ks|]);
    RunJoin(c, us, ks, vs, ls);
    FinishesBoth(before[k], us[|ks|], vs[|ls|]);
    states, steps := us + vs[1..], ks + ls;
    forall p ensures NothingBetween(states[|steps|], p) { RestedBetween(before[k], states[|steps|], p); }
  }
}
