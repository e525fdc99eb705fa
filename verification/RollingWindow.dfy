/**
 The rolling window of CPU and memory readings of a process and the spike rule
 on it (internal/events/process/snapshot.go and poll in collector.go), in exact
 arithmetic.
 */
module RollingWindow {
  import opened Events

  const WINDOW: nat := 5

  function Sum(s: seq<real>): real {
    if s == [] then 0.0 else Sum(s[..|s| - 1]) + s[|s| - 1]
  }

  /** The mean of a non-empty window; 0 before the first reading. */
  function Mean(s: seq<real>): real {
    if s == [] then 0.0 else Sum(s) / (|s| as real)
  }

  lemma {:induction false} SumConcat(a: seq<real>, b: seq<real>)
    ensures Sum(a + b) == Sum(a) + Sum(b)
    decreases |b|
  {
    if b == [] {
      assert a + b == a;
    } else {
      SumConcat(a, b[..|b| - 1]);
      assert (a + b)[..|a + b| - 1] == a + b[..|b| - 1];
    }
  }

  /** The slots in reading order: from the oldest round to the newest. */
  ghost predicate Unrolls(slots: seq<real>, idx: nat, filled: nat, window: seq<real>) {
    && |slots| == WINDOW && idx < WINDOW && filled <= WINDOW
    && (filled < WINDOW ==> idx == filled && window == slots[..filled])
    && (filled == WINDOW ==> window == slots[idx..] + slots[..idx])
  }

  lemma UnrollPush(slots: seq<real>, idx: nat, filled: nat, log: seq<real>, v: real)
    requires Unrolls(slots, idx, filled, Newest(log, WINDOW)) && filled == |Newest(log, WINDOW)|
    ensures var filled' := if filled < WINDOW then filled + 1 else filled;
            && Unrolls(slots[idx := v], (idx + 1) % WINDOW, filled', Newest(log + [v], WINDOW))
            && filled' == |Newest(log + [v], WINDOW)|
  {
    var w, w' := Newest(log, WINDOW), Newest(log + [v], WINDOW);
    var s' := slots[idx := v];
    if filled < WINDOW {
      assert w' == w + [v] && s'[..filled + 1] == slots[..filled] + [v];
      if filled + 1 == WINDOW {
        assert s'[0..] + s'[..0] == s'[..WINDOW];
      }
    } else {
      assert w' == w[1..] + [v];
      assert w[1..] == slots[idx + 1..] + slots[..idx];
      if idx + 1 < WINDOW {
        assert s'[idx + 1..] == slots[idx + 1..] && s'[..idx + 1] == slots[..idx] + [v];
      } else {
        assert s'[0..] + s'[..0] == slots[..idx] + [v];
      }
    }
  }

  lemma UnrollSum(slots: seq<real>, idx: nat, filled: nat, window: seq<real>)
    requires Unrolls(slots, idx, filled, window)
    ensures Sum(slots[..filled]) == Sum(window) && |window| == filled
  {
    if filled == WINDOW {
      SumConcat(slots[idx..], slots[..idx]);
      SumConcat(slots[..idx], slots[idx..]);
      assert slots[..idx] + slots[idx..] == slots[..filled];
    }
  }

  class Snapshot {
    const cpu: array<real>
    const mem: array<real>
    var historyIdx: nat
    var historyFilled: nat
    /** All readings so far. */
    ghost var cpuLog: seq<real>
    ghost var memLog: seq<real>

    /** The arrays hold the last readings, up to five, and nothing else counts. */
    ghost predicate Valid()
      reads this, cpu, mem
    {
      && cpu.Length == WINDOW && mem.Length == WINDOW && cpu != mem && |cpuLog| == |memLog|
      && Unrolls(cpu[..], historyIdx, historyFilled, Newest(cpuLog, WINDOW))
      && Unrolls(mem[..], historyIdx, historyFilled, Newest(memLog, WINDOW))
      && historyFilled == |Newest(cpuLog, WINDOW)| == |Newest(memLog, WINDOW)|
    }

    constructor ()
      ensures Valid() && cpuLog == [] && memLog == [] && fresh(cpu) && fresh(mem)
    {
      cpu := new real[WINDOW];
      mem := new real[WINDOW];
      historyIdx, historyFilled := 0, 0;
      cpuLog, memLog := [], [];
    }

    method PushMetrics(c: real, m: real) returns (cpuAvg: real, memAvg: real)
      requires Valid()
      modifies this, cpu, mem
      ensures Valid() && cpuLog == old(cpuLog) + [c] && memLog == old(memLog) + [m]
      ensures cpuAvg == Mean(Newest(cpuLog, WINDOW)) && memAvg == Mean(Newest(memLog, WINDOW))
    {
      UnrollPush(cpu[..], historyIdx, historyFilled, cpuLog, c);
      UnrollPush(mem[..], historyIdx, historyFilled, memLog, m);
      ghost var cpu1, mem1 := cpu[..][historyIdx := c], mem[..][historyIdx := m];
      cpu[historyIdx] := c;
      mem[historyIdx] := m;
      assert cpu[..] == cpu1 && mem[..] == mem1;
      cpuLog, memLog := cpuLog + [c], memLog + [m];
      historyIdx := (historyIdx + 1) % WINDOW;
      if historyFilled < WINDOW {
        historyFilled := historyFilled + 1;
      }
      UnrollSum(cpu[..], historyIdx, historyFilled, Newest(cpuLog, WINDOW));
      UnrollSum(mem[..], historyIdx, historyFilled, Newest(memLog, WINDOW));
      cpuAvg := Average(cpu, historyFilled);
      memAvg := Average(mem, historyFilled);
    }

    method ReadyForAnomaly() returns (ready: bool)
      requires Valid()
      ensures ready <==> |cpuLog| >= 3
    {
      ready := historyFilled >= 3;
    }
  }

  /** cpuAvg, memAvg */
  method Average(slots: array<real>, filled: nat) returns (avg: real)
    requires filled <= slots.Length
    ensures avg == Mean(slots[..filled])
  {
    if filled == 0 {
      return 0.0;
    }
    var sum := 0.0;
    for i := 0 to filled
      invariant sum == Sum(slots[..i])
    {
      assert slots[..i + 1][..i] == slots[..i];
      sum := sum + slots[i];
    }
    avg := sum / (filled as real);
  }

  // ---- the spike rule ----

  /** The alert test of poll, given the average that includes the current reading. */
  predicate Spikes(current: real, avg: real, floor: real, multiplier: real) {
    current > floor && (avg == 0.0 || current > multiplier * avg)
  }

  /** The alert is raised: the test holds and the last alert is longer ago than the cooldown. */
  predicate Fires(current: real, avg: real, floor: real, multiplier: real, since: int, cooldown: int) {
    Spikes(current, avg, floor, multiplier) && since > cooldown
  }

  ghost predicate NonNegative(s: seq<real>) {
    forall i :: 0 <= i < |s| ==> s[i] >= 0.0
  }

  lemma {:induction false} SumNonNegative(s: seq<real>)
    requires NonNegative(s)
    ensures Sum(s) >= 0.0
  {
    if s != [] {
      SumNonNegative(s[..|s| - 1]);
    }
  }

  /**
   With the default multiplier the current reading is part of its own average:
   with k readings an alert needs (k - 3) times the reading to exceed three
   times the sum of the others, and that suffices above the floor.
   */
  lemma SpikeNeeds(others: seq<real>, current: real, floor: real, since: int, cooldown: int)
    requires NonNegative(others) && floor >= 0.0 && 3 <= |others| + 1 <= WINDOW
    ensures var k := |others| + 1;
            Fires(current, Mean(others + [current]), floor, 3.0, since, cooldown) <==>
            since > cooldown && current > floor && Exceeds(k, current, Sum(others))
  {
    SumNonNegative(others);
    MeanAppend(others, current);
    SpikeArithmetic(Sum(others), current, |others| + 1, Mean(others + [current]), floor);
  }

  /** (k - 3) times the current reading exceeds three times the sum of the others. */
  predicate Exceeds(k: int, current: real, sum: real) {
    (k - 3) as real * current > 3.0 * sum
  }

  lemma MeanAppend(others: seq<real>, current: real)
    requires 3 <= |others| + 1 <= 5
    ensures var avg := Mean(others + [current]);
            IsMean(|others| + 1, avg, Sum(others) + current)
  {
    var s := others + [current];
    assert s[..|others|] == others;
    Divides(Sum(others) + current, |others| + 1);
  }

  lemma Divides(total: real, k: int)
    requires 3 <= k <= 5
    ensures IsMean(k, total / (k as real), total)
  {
    if k == 3 { assert total / (k as real) == total / 3.0; }
    else if k == 4 { assert total / (k as real) == total / 4.0; }
    else { assert total / (k as real) == total / 5.0; }
  }

  predicate IsMean(k: int, avg: real, total: real) {
    && (k == 3 ==> 3.0 * avg == total)
    && (k == 4 ==> 4.0 * avg == total)
    && (k == 5 ==> 5.0 * avg == total)
  }

  lemma SpikeArithmetic(sum: real, current: real, k: int, avg: real, floor: real)
    requires sum >= 0.0 && floor >= 0.0 && 3 <= k <= 5 && IsMean(k, avg, sum + current)
    ensures Spikes(current, avg, floor, 3.0) <==> current > floor && Exceeds(k, current, sum)
  {
    assert k == 3 ==> (k - 3) as real * current == 0.0;
    assert k == 4 ==> (k - 3) as real * current == current;
    assert k == 5 ==> (k - 3) as real * current == 2.0 * current;
  }

  /** So nothing can fire on three readings, and on five it takes more than six times the mean of the others. */
  lemma SpikeBounds(others: seq<real>, current: real, floor: real, since: int, cooldown: int)
    requires NonNegative(others) && floor >= 0.0 && 3 <= |others| + 1 <= WINDOW
    requires Fires(current, Mean(others + [current]), floor, 3.0, since, cooldown)
    ensures |others| + 1 > 3
    ensures |others| + 1 == 4 ==> current > 9.0 * Mean(others)
    ensures |others| + 1 == 5 ==> current > 6.0 * Mean(others)
  {
    SpikeNeeds(others, current, floor, since, cooldown);
    SumNonNegative(others);
    var k := |others| + 1;
    assert k == 3 ==> (k - 3) as real * current == 0.0;
    assert k == 4 ==> (k - 3) as real * current == current;
    assert k == 5 ==> (k - 3) as real * current == 2.0 * current;
  }
}
