/**
 The collector registry (internal/collector/collector.go): every pass runs all
 collectors concurrently, goes on without those that overrun, and never starts
 a collector whose last call has not returned.
 */
module Registry {
  import opened Prelude

  datatype Error = StillRunning | TimedOut | Failed(message: string)

  /** What one collector contributes to a pass. */
  type Report<P> = Result<seq<P>, Error>

  /** A Collect call in its goroutine; `sent` once its result is in its channel. */
  datatype Call = Call(name: string, pass: nat, index: nat, sent: bool)

  /** A pass: the collectors before `next` were looked at, `waiting` are those still awaited. */
  datatype Pass<P> = Pass(number: nat, next: nat, waiting: set<nat>, results: seq<Option<Report<P>>>)

  /** `returned` remembers what each call of each pass returned (its channel keeps it for the waiter). */
  datatype System<P> = System(
    busy: set<string>, calls: set<Call>, passes: nat, pass: Option<Pass<P>>, returned: map<(nat, nat), Report<P>>)

  datatype Step<P> =
    | Begin
    | Launch
    | Return(call: Call, report: Report<P>)
    | Finish(call: Call)
    | Take(index: nat)
    | Timeout(index: nat)
    | End

  predicate Enabled<P>(names: seq<string>, s: System<P>, step: Step<P>) {
    match step
    case Begin => s.pass.None?
    case Launch => s.pass.Some? && s.pass.value.next < |names| == |s.pass.value.results|
    case Return(c, r) => c in s.calls && !c.sent && r != Err(StillRunning) && r != Err(TimedOut)
    case Finish(c) => c in s.calls && c.sent
    case Take(i) =>
      s.pass.Some? && i in s.pass.value.waiting && i < |s.pass.value.results| && (s.pass.value.number, i) in s.returned
    case Timeout(i) => s.pass.Some? && i in s.pass.value.waiting && i < |s.pass.value.results|
    case End => s.pass.Some? && s.pass.value.next == |names| && s.pass.value.waiting == {}
  }

  function Next<P>(names: seq<string>, s: System<P>, step: Step<P>): System<P>
    requires Enabled(names, s, step)
  {
    match step
    case Begin =>
      s.(passes := s.passes + 1, pass := Some(Pass(s.passes, 0, {}, seq(|names|, _ => None))))
    case Launch =>
      var p := s.pass.value;
      var name := names[p.next];
      if name in s.busy then
        s.(pass := Some(p.(next := p.next + 1, results := p.results[p.next := Some(Err(StillRunning))])))
      else
        s.(busy := s.busy + {name}, calls := s.calls + {Call(name, p.number, p.next, false)},
           pass := Some(p.(next := p.next + 1, waiting := p.waiting + {p.next})))
    case Return(c, r) =>
      s.(calls := s.calls - {c} + {c.(sent := true)}, returned := s.returned[(c.pass, c.index) := r])
    case Finish(c) => s.(calls := s.calls - {c}, busy := s.busy - {c.name})
    case Take(i) =>
      var p := s.pass.value;
      s.(pass := Some(p.(waiting := p.waiting - {i}, results := p.results[i := Some(s.returned[(p.number, i)])])))
    case Timeout(i) =>
      var p := s.pass.value;
      s.(pass := Some(p.(waiting := p.waiting - {i}, results := p.results[i := Some(Err(TimedOut))])))
    case End => s.(pass := None)
  }

  // ---- what every interleaving keeps ----

  /** One call per name, and the busy set is exactly the names with a call. */
  ghost predicate OneInFlight<P>(s: System<P>) {
    && (forall c, d :: c in s.calls && d in s.calls && c.name == d.name ==> c == d)
    && (forall c :: c in s.calls ==> c.name in s.busy)
    && (forall name :: name in s.busy ==> exists c :: c in s.calls && c.name == name)
  }

  /** A result is what this collector returned in this very pass, or says why there is none. */
  ghost predicate Own<P>(s: System<P>, number: nat, i: nat, r: Report<P>) {
    r == Err(StillRunning) || r == Err(TimedOut) || ((number, i) in s.returned && s.returned[(number, i)] == r)
  }

  ghost predicate PassOk<P>(names: seq<string>, s: System<P>, p: Pass<P>) {
    && |p.results| == |names| && p.next <= |names| && p.number < s.passes
    && (forall i :: i in p.waiting ==> i < p.next && p.results[i].None?)
    && (forall i :: 0 <= i < p.next && i !in p.waiting ==> p.results[i].Some?)
    && (forall i :: 0 <= i < |names| && p.results[i].Some? ==> i < p.next && Own(s, p.number, i, p.results[i].value))
  }

  /** A call is known by its pass and index: calls that have not sent have no result yet. */
  ghost predicate CallsOk<P>(s: System<P>) {
    && (forall c :: c in s.calls ==>
          c.pass < s.passes && (s.pass.Some? && c.pass == s.pass.value.number ==> c.index < s.pass.value.next))
    && (forall c :: c in s.calls && !c.sent ==> (c.pass, c.index) !in s.returned)
    && (forall k :: k in s.returned ==>
          k.0 < s.passes && (s.pass.Some? && k.0 == s.pass.value.number ==> k.1 < s.pass.value.next))
    && (forall c, d :: c in s.calls && d in s.calls && c.pass == d.pass && c.index == d.index ==> c == d)
  }

  /** What the registry reports of its own is never what a collector returned. */
  ghost predicate ReturnsOk<P>(s: System<P>) {
    forall k :: k in s.returned ==> s.returned[k] != Err(StillRunning) && s.returned[k] != Err(TimedOut)
  }

  ghost predicate Inv<P>(names: seq<string>, s: System<P>) {
    && OneInFlight(s) && CallsOk(s) && ReturnsOk(s)
    && (s.pass.Some? ==> PassOk(names, s, s.pass.value) && s.pass.value.number + 1 == s.passes)
  }

  lemma OneMore<P>(s: System<P>, t: System<P>, c: Call)
    requires OneInFlight(s) && c.name !in s.busy && t.calls == s.calls + {c} && t.busy == s.busy + {c.name}
    ensures OneInFlight(t)
  {
    forall name | name in t.busy ensures exists d :: d in t.calls && d.name == name {
      if name in s.busy {
        var d :| d in s.calls && d.name == name;
        assert d in t.calls;
      } else {
        assert c in t.calls;
      }
    }
  }

  lemma LaunchPass<P>(names: seq<string>, s: System<P>)
    requires Inv(names, s) && Enabled(names, s, Launch)
    ensures var t := Next(names, s, Launch);
            PassOk(names, t, t.pass.value) && t.pass.value.number + 1 == t.passes
  {
    var p := s.pass.value;
    var t := Next(names, s, Launch);
    var q := t.pass.value;
    forall i | 0 <= i < |names| && q.results[i].Some? ensures i < q.next && Own(t, q.number, i, q.results[i].value) {
      if i != p.next {
        assert q.results[i] == p.results[i];
        assert Own(s, p.number, i, p.results[i].value);
      }
    }
  }

  lemma LaunchCalls<P>(names: seq<string>, s: System<P>)
    requires Inv(names, s) && Enabled(names, s, Launch)
    ensures CallsOk(Next(names, s, Launch))
  {
  }

  lemma LaunchKeeps<P>(names: seq<string>, s: System<P>)
    requires Inv(names, s) && Enabled(names, s, Launch)
    ensures Inv(names, Next(names, s, Launch))
  {
    var p := s.pass.value;
    LaunchPass(names, s);
    LaunchCalls(names, s);
    if names[p.next] !in s.busy {
      OneMore(s, Next(names, s, Launch), Call(names[p.next], p.number, p.next, false));
    }
  }

  lemma OneSends<P>(s: System<P>, t: System<P>, c: Call)
    requires OneInFlight(s) && c in s.calls && t.calls == s.calls - {c} + {c.(sent := true)} && t.busy == s.busy
    ensures OneInFlight(t)
  {
    var c' := c.(sent := true);
    assert c' in t.calls;
    forall name | name in t.busy ensures exists d :: d in t.calls && d.name == name {
      var d :| d in s.calls && d.name == name;
      assert d == c || d in t.calls;
    }
  }

  lemma ReturnCalls<P>(names: seq<string>, s: System<P>, c: Call, r: Report<P>)
    requires Inv(names, s) && Enabled(names, s, Return(c, r))
    ensures CallsOk(Next(names, s, Return(c, r)))
  {
  }

  lemma ReturnKeeps<P>(names: seq<string>, s: System<P>, c: Call, r: Report<P>)
    requires Inv(names, s) && Enabled(names, s, Return(c, r))
    ensures Inv(names, Next(names, s, Return(c, r)))
  {
    var t := Next(names, s, Return(c, r));
    OneSends(s, t, c);
    ReturnCalls(names, s, c, r);
    if s.pass.Some? {
      var p := s.pass.value;
      forall i | 0 <= i < |names| && p.results[i].Some? ensures i < p.next && Own(t, p.number, i, p.results[i].value) {
        assert Own(s, p.number, i, p.results[i].value);
      }
      assert PassOk(names, t, p);
    }
  }

  lemma FinishKeeps<P>(names: seq<string>, s: System<P>, c: Call)
    requires Inv(names, s) && Enabled(names, s, Finish(c))
    ensures Inv(names, Next(names, s, Finish(c)))
  {
    var t := Next(names, s, Finish(c));
    forall name | name in t.busy ensures exists d :: d in t.calls && d.name == name {
      var d :| d in s.calls && d.name == name;
      assert d in t.calls;
    }
    if s.pass.Some? {
      var p := s.pass.value;
      forall i | 0 <= i < |names| && p.results[i].Some? ensures Own(t, p.number, i, p.results[i].value) {
        assert Own(s, p.number, i, p.results[i].value);
      }
    }
  }

  lemma WaiterKeeps<P>(names: seq<string>, s: System<P>, step: Step<P>)
    requires Inv(names, s) && Enabled(names, s, step) && (step.Take? || step.Timeout? || step.Begin? || step.End?)
    ensures Inv(names, Next(names, s, step))
  {
    var t := Next(names, s, step);
    assert t.calls == s.calls && t.busy == s.busy && t.returned == s.returned;
    if t.pass.Some? && s.pass.Some? {
      var p, q := s.pass.value, t.pass.value;
      forall i | 0 <= i < |names| && q.results[i].Some? ensures i < q.next && Own(t, q.number, i, q.results[i].value) {
        if p.results[i].Some? {
          assert Own(s, p.number, i, p.results[i].value);
        }
      }
    }
  }

  lemma StepKeeps<P>(names: seq<string>, s: System<P>, step: Step<P>)
    requires Inv(names, s) && Enabled(names, s, step)
    ensures Inv(names, Next(names, s, step))
  {
    match step {
      case Launch => LaunchKeeps(names, s);
      case Return(c, r) => ReturnKeeps(names, s, c, r);
      case Finish(c) => FinishKeeps(names, s, c);
      case _ => WaiterKeeps(names, s, step);
    }
  }

  ghost predicate IsRun<P>(names: seq<string>, states: seq<System<P>>, steps: seq<Step<P>>) {
    && |states| == |steps| + 1 && states[0] == System({}, {}, 0, None, map[])
    && forall k :: 0 <= k < |steps| ==>
         Enabled(names, states[k], steps[k]) && states[k + 1] == Next(names, states[k], steps[k])
  }

  /** In every interleaving of passes, returns and timeouts. */
  lemma {:induction false} RunKeeps<P>(names: seq<string>, states: seq<System<P>>, steps: seq<Step<P>>, k: nat)
    requires IsRun(names, states, steps) && k <= |steps|
    ensures Inv(names, states[k])
  {
    if k > 0 {
      RunKeeps(names, states, steps, k - 1);
      StepKeeps(names, states[k - 1], steps[k - 1]);
    }
  }

  // ---- a collector that hangs stops nothing else ----

  ghost predicate IsPath<P>(names: seq<string>, states: seq<System<P>>, steps: seq<Step<P>>) {
    && |states| == |steps| + 1
    && forall k :: 0 <= k < |steps| ==>
         Enabled(names, states[k], steps[k]) && states[k + 1] == Next(names, states[k], steps[k])
  }

  lemma PathOn<P>(names: seq<string>, s: System<P>, step: Step<P>, states: seq<System<P>>, steps: seq<Step<P>>)
    requires Enabled(names, s, step) && IsPath(names, states, steps) && states[0] == Next(names, s, step)
    ensures IsPath(names, [s] + states, [step] + steps)
  {
    var us, vs := [s] + states, [step] + steps;
    forall k | 0 <= k < |vs| ensures Enabled(names, us[k], vs[k]) && us[k + 1] == Next(names, us[k], vs[k]) {
      if k > 0 { assert us[k] == states[k - 1] && vs[k] == steps[k - 1] && us[k + 1] == states[k]; }
    }
  }

  /** How much a pass has left to do. */
  function Left<P>(names: seq<string>, p: Pass<P>): int {
    2 * (|names| - p.next) + |p.waiting|
  }

  /** What a pass can do next without any collector. */
  ghost function OwnStep<P>(names: seq<string>, p: Pass<P>): (step: Step<P>)
    ensures p.next < |names| ==> step.Launch?
    ensures p.next >= |names| && p.waiting != {} ==> step.Timeout? && step.index in p.waiting
    ensures p.next >= |names| && p.waiting == {} ==> step.End?
  {
    if p.next < |names| then Launch else if p.waiting != {} then var i :| i in p.waiting; Timeout(i) else End
  }

  lemma OwnStepGoes<P>(names: seq<string>, s: System<P>)
    requires Inv(names, s) && s.pass.Some?
    ensures var step := OwnStep(names, s.pass.value);
            && Enabled(names, s, step)
            && var t := Next(names, s, step);
            && s.calls <= t.calls && Left(names, s.pass.value) >= 0
            && (if step.End? then t.pass.None?
                else t.pass.Some? && Left(names, t.pass.value) < Left(names, s.pass.value))
  {
    var p := s.pass.value;
    if p.next < |names| && names[p.next] !in s.busy {
      assert p.next !in p.waiting;
    }
  }

  /**
   Wherever a run stands inside a pass, the pass can end by its own steps
   alone: looking at the remaining collectors and timing out. No call in flight
   has to return for it.
   */
  lemma {:induction false} PassCanEnd<P>(names: seq<string>, s: System<P>)
    returns (states: seq<System<P>>, steps: seq<Step<P>>)
    requires Inv(names, s) && s.pass.Some?
    ensures IsPath(names, states, steps) && states[0] == s && states[|steps|].pass.None?
    ensures forall k :: 0 <= k < |steps| ==> steps[k].Launch? || steps[k].Timeout? || steps[k].End?
    ensures s.calls <= states[|steps|].calls
    decreases Left(names, s.pass.value)
  {
    var step := OwnStep(names, s.pass.value);
    OwnStepGoes(names, s);
    StepKeeps(names, s, step);
    var t := Next(names, s, step);
    if step.End? {
      states, steps := [s, t], [step];
    } else {
      states, steps := PassCanEnd(names, t);
      PathOn(names, s, step, states, steps);
      states, steps := [s] + states, [step] + steps;
    }
  }

  /**
   A call that returns can finish, and then its name is free: nothing else
   changes, and the next pass that looks at the collector calls it again.
   */
  lemma ReturnFrees<P>(names: seq<string>, s: System<P>, c: Call, r: Report<P>)
    requires Inv(names, s) && Enabled(names, s, Return(c, r))
    ensures var d := c.(sent := true);
            && Enabled(names, Next(names, s, Return(c, r)), Finish(d))
            && var t := Next(names, Next(names, s, Return(c, r)), Finish(d));
            && t == s.(busy := s.busy - {c.name}, calls := s.calls - {c},
                       returned := s.returned[(c.pass, c.index) := r])
            && (Enabled(names, t, Launch) && names[t.pass.value.next] == c.name ==>
                  var p := t.pass.value;
                  Call(c.name, p.number, p.next, false) in Next(names, t, Launch).calls)
  {
    var d := c.(sent := true);
    assert d !in s.calls || d == c;
    assert s.calls - {c} + {d} - {d} == s.calls - {c};
  }

  // ---- the outcome of a pass ----

  /** The points of the collectors that reported some, in registration order. */
  function Points<P>(results: seq<Report<P>>): seq<P> {
    if results == [] then []
    else Points(results[..|results| - 1]) + (match results[|results| - 1] case Ok(ps) => ps case Err(_) => [])
  }

  /** Each collector's points are there once, in full, between those of the collectors before and after it. */
  lemma PointsAt<P>(results: seq<Report<P>>, i: nat)
    requires i < |results|
    ensures Points(results) ==
            Points(results[..i]) + (if results[i].Ok? then results[i].value else []) + Points(results[i + 1..])
    ensures Points<P>([]) == []
  {
    PointsJoin(results[..i + 1], results[i + 1..]);
    assert results[..i + 1] + results[i + 1..] == results && results[..i + 1][..i] == results[..i];
  }

  lemma {:induction false} PointsJoin<P>(a: seq<Report<P>>, b: seq<Report<P>>)
    ensures Points(a + b) == Points(a) + Points(b)
    decreases |b|
  {
    if b == [] {
      assert a + b == a;
    } else {
      PointsJoin(a, b[..|b| - 1]);
      assert (a + b)[..|a + b| - 1] == a + b[..|b| - 1];
    }
  }

  /** The last failing collector of this name, at i, failed with e. */
  ghost predicate LastError<P>(names: seq<string>, results: seq<Report<P>>, name: string, i: nat, e: Error)
    requires |names| == |results|
  {
    && i < |names| && names[i] == name && results[i] == Err(e)
    && forall j :: i < j < |names| && names[j] == name ==> !results[j].Err?
  }

  lemma LastErrorStays<P>(names: seq<string>, results: seq<Report<P>>, name: string, i: nat, j: nat, e: Error)
    requires i < |names| == |results| && LastError(names[..i], results[..i], name, j, e)
    requires names[i] != name || !results[i].Err?
    ensures LastError(names[..i + 1], results[..i + 1], name, j, e)
  {
    var ns, rs := names[..i + 1], results[..i + 1];
    forall k | j < k < |ns| && ns[k] == name ensures !rs[k].Err? {
      if k < i { assert names[..i][k] == ns[k] && results[..i][k] == rs[k]; }
    }
  }

  /** The last part of CollectAll. */
  method Gather<P>(names: seq<string>, results: seq<Report<P>>) returns (points: seq<P>, errs: map<string, Error>)
    requires |names| == |results|
    ensures points == Points(results)
    ensures forall i :: 0 <= i < |names| && results[i].Err? ==> names[i] in errs
    ensures forall name :: name in errs ==> exists i :: LastError(names, results, name, i, errs[name])
  {
    points, errs := [], map[];
    for i := 0 to |results|
      invariant points == Points(results[..i])
      invariant forall j :: 0 <= j < i && results[j].Err? ==> names[j] in errs
      invariant forall name :: name in errs ==> exists j :: LastError(names[..i], results[..i], name, j, errs[name])
    {
      ghost var before, ns, rs := errs, names[..i + 1], results[..i + 1];
      assert results[..i + 1][..i] == results[..i];
      match results[i] {
        case Err(e) => errs := errs[names[i] := e];
        case Ok(ps) => points := points + ps;
      }
      forall name | name in errs ensures exists j :: LastError(ns, rs, name, j, errs[name]) {
        if results[i].Err? && name == names[i] {
          assert LastError(ns, rs, name, i, errs[name]);
        } else {
          var j :| LastError(names[..i], results[..i], name, j, before[name]);
          LastErrorStays(names, results, name, i, j, errs[name]);
        }
      }
    }
    assert results[..|results|] == results && names[..|names|] == names;
  }

  /** The m-th step is this pass's look at its i-th collector. */
  ghost predicate Looks<P>(states: seq<System<P>>, steps: seq<Step<P>>, m: nat, number: nat, i: nat)
    requires m < |steps| <= |states|
  {
    && steps[m].Launch? && states[m].pass.Some?
    && states[m].pass.value.number == number && states[m].pass.value.next == i
  }

  /** When the pass looked at its i-th collector, at m, it was busy if and only if it is reported as still running. */
  ghost predicate Fair<P>(
    names: seq<string>, states: seq<System<P>>, steps: seq<Step<P>>, m: nat, i: nat, p: Pass<P>)
    requires m < |steps| <= |states| && i < |names| <= |p.results|
  {
    && Looks(states, steps, m, p.number, i)
    && (p.results[i] == Some(Err(StillRunning)) <==> names[i] in states[m].busy)
  }

  lemma {:induction false} LookedAt<P>(
    names: seq<string>, states: seq<System<P>>, steps: seq<Step<P>>, k: nat, i: nat) returns (m: nat)
    requires IsRun(names, states, steps) && k <= |steps| && states[k].pass.Some? && i < states[k].pass.value.next
    ensures i < |names| == |states[k].pass.value.results|
    ensures m < k && Fair(names, states, steps, m, i, states[k].pass.value)
  {
    RunKeeps(names, states, steps, k);
    RunKeeps(names, states, steps, k - 1);
    if steps[k - 1].Launch? && states[k - 1].pass.value.next == i {
      m := k - 1;
      LaunchReports(names, states[k - 1], i);
    } else {
      m := LookedAt(names, states, steps, k - 1, i);
      ReportStays(names, states[k - 1], steps[k - 1], i);
    }
  }

  lemma LaunchReports<P>(names: seq<string>, s: System<P>, i: nat)
    requires Inv(names, s) && Enabled(names, s, Launch) && s.pass.value.next == i
    ensures var p := Next(names, s, Launch).pass.value;
            && p.number == s.pass.value.number
            && (p.results[i] == Some(Err(StillRunning)) <==> names[i] in s.busy)
  {
  }

  lemma ReportStays<P>(names: seq<string>, s: System<P>, step: Step<P>, i: nat)
    requires Inv(names, s) && Enabled(names, s, step) && i < |names|
    requires s.pass.Some? && i < s.pass.value.next && Next(names, s, step).pass.Some?
    ensures var p, q := s.pass.value, Next(names, s, step).pass.value;
            && q.number == p.number
            && (q.results[i] == Some(Err(StillRunning)) <==> p.results[i] == Some(Err(StillRunning)))
  {
  }

  /**
   When a pass of any run ends, every collector has a result: what its own call
   of this pass returned, that it timed out, or that it was still running. It is
   the last if and only if a call of its name had not finished when the pass
   looked at it; so only collectors that this pass launched time out. (Gather
   then puts it into the points or the errors.) Late results of earlier passes
   are in none.
   */
  lemma PassIsComplete<P>(
    names: seq<string>, states: seq<System<P>>, steps: seq<Step<P>>, k: nat, i: nat) returns (m: nat)
    requires IsRun(names, states, steps) && k < |steps| && steps[k].End? && i < |names|
    ensures var p := states[k].pass.value;
            && |p.results| == |names| && p.results[i].Some? && Own(states[k], p.number, i, p.results[i].value)
    ensures var p := states[k].pass.value;
            && m < k && Looks(states, steps, m, p.number, i)
            && (p.results[i] == Some(Err(StillRunning)) <==> exists c :: c in states[m].calls && c.name == names[i])
            && (p.results[i] == Some(Err(TimedOut)) ==> names[i] !in states[m].busy)
  {
    RunKeeps(names, states, steps, k);
    m := LookedAt(names, states, steps, k, i);
    RunKeeps(names, states, steps, m);
  }

  /** At most one Collect per name is running, and a name is busy exactly while its call has not finished. */
  lemma AtMostOneCollect<P>(names: seq<string>, states: seq<System<P>>, steps: seq<Step<P>>, k: nat)
    requires IsRun(names, states, steps) && k <= |steps|
    ensures var s := states[k];
            && (forall c, d :: c in s.calls && d in s.calls && c.name == d.name ==> c == d)
            && s.busy == set c | c in s.calls :: c.name
  {
    RunKeeps(names, states, steps, k);
    var s := states[k];
    forall name | name in s.busy ensures name in set c | c in s.calls :: c.name {
      var c :| c in s.calls && c.name == name;
    }
  }

  /** The registry's lock-protected busy set. */
  class Busy {
    var names: set<string>

    constructor ()
      ensures names == {}
    {
      names := {};
    }

    method Start(name: string) returns (ok: bool)
      modifies this
      ensures ok <==> name !in old(names)
      ensures names == old(names) + {name}
    {
      if name in names {
        return false;
      }
      names := names + {name};
      return true;
    }

    method Finish(name: string)
      modifies this
      ensures names == old(names) - {name}
    {
      names := names - {name};
    }
  }
}
