/**
 Start/stop tracking of processes by pid and start time
 (buildBaseline and poll in internal/events/process/collector.go).
 */
module ProcessWatch {
  import opened Prelude

  /** One line of the process list. */
  datatype Sample = Sample(pid: int, start: nat)

  /** A tracked process; those of the baseline are not new. */
  datatype Snapshot = Snapshot(start: nat, isNew: bool)

  type Procs = map<int, Snapshot>

  datatype Event = Started(pid: int, start: nat) | Stopped(pid: int, start: nat)

  /** A process: a pid and when it started. */
  type Process = (int, nat)

  ghost function Tracked(procs: Procs): set<Process> {
    set pid | pid in procs :: (pid, procs[pid].start)
  }

  ghost function NewOnes(procs: Procs): set<Process> {
    set pid | pid in procs && procs[pid].isNew :: (pid, procs[pid].start)
  }

  ghost function Listed(list: seq<Sample>): set<Process> {
    set k | 0 <= k < |list| :: (list[k].pid, list[k].start)
  }

  ghost predicate DistinctPids(list: seq<Sample>) {
    forall i, j :: 0 <= i < j < |list| ==> list[i].pid != list[j].pid
  }

  /** The events played back on a set of running processes; None when one contradicts it. */
  ghost function Replay(live: set<Process>, log: seq<Event>): Option<set<Process>> {
    if log == [] then Some(live)
    else
      match Replay(live, log[..|log| - 1])
      case None => None
      case Some(s) =>
        (match log[|log| - 1]
         case Started(pid, start) => if (pid, start) in s then None else Some(s + {(pid, start)})
         case Stopped(pid, start) => if (pid, start) in s then Some(s - {(pid, start)}) else None)
  }

  lemma ReplayOne(live: set<Process>, log: seq<Event>, e: Event)
    requires Replay(live, log).Some?
    ensures var s := Replay(live, log).value;
            && (e.Started? && (e.pid, e.start) !in s ==> Replay(live, log + [e]) == Some(s + {(e.pid, e.start)}))
            && (e.Stopped? && (e.pid, e.start) in s ==> Replay(live, log + [e]) == Some(s - {(e.pid, e.start)}))
  {
    assert (log + [e])[..|log|] == log;
  }

  lemma {:induction false} ReplayAppend(live: set<Process>, a: seq<Event>, b: seq<Event>)
    requires Replay(live, a).Some?
    ensures Replay(live, a + b) == Replay(Replay(live, a).value, b)
    decreases |b|
  {
    if b == [] {
      assert a + b == a;
    } else {
      ReplayAppend(live, a, b[..|b| - 1]);
      assert (a + b)[..|a + b| - 1] == a + b[..|b| - 1];
    }
  }

  class Collector {
    const lifecycle: bool
    var procs: Procs

    constructor (lifecycle: bool)
      ensures this.lifecycle == lifecycle && procs == map[]
    {
      this.lifecycle := lifecycle;
      procs := map[];
    }

    /** What runs at the start is tracked, and never reported. */
    method BuildBaseline(list: Option<seq<Sample>>)
      requires procs == map[]
      modifies this`procs
      ensures NewOnes(procs) == {}
      ensures list.None? ==> procs == map[]
      ensures list.Some? && DistinctPids(list.value) ==> Tracked(procs) == Listed(list.value)
    {
      if list.None? {
        return;
      }
      for i := 0 to |list.value|
        invariant forall pid :: pid in procs ==> !procs[pid].isNew
        invariant forall pid :: pid in procs ==>
                    exists k :: 0 <= k < i && list.value[k] == Sample(pid, procs[pid].start)
        invariant DistinctPids(list.value) ==>
          forall k :: 0 <= k < i ==> list.value[k].pid in procs && procs[list.value[k].pid].start == list.value[k].start
      {
        var p := list.value[i];
        procs := procs[p.pid := Snapshot(p.start, false)];
      }
    }

    /** The last sample of each pid. */
    method Index(list: seq<Sample>) returns (current: map<int, nat>)
      ensures forall pid :: pid in current ==> exists k :: 0 <= k < |list| && list[k] == Sample(pid, current[pid])
      ensures forall k :: 0 <= k < |list| ==> list[k].pid in current
      ensures DistinctPids(list) ==> forall k :: 0 <= k < |list| ==> current[list[k].pid] == list[k].start
    {
      current := map[];
      for i := 0 to |list|
        invariant forall pid :: pid in current ==> exists k :: 0 <= k < i && list[k] == Sample(pid, current[pid])
        invariant forall k :: 0 <= k < i ==> list[k].pid in current
        invariant DistinctPids(list) ==> forall k :: 0 <= k < i ==> current[list[k].pid] == list[k].start
      {
        current := current[list[i].pid := list[i].start];
      }
    }

    /** First half of poll: processes that are not in the list as they were have exited. */
    method DropExited(current: map<int, nat>) returns (evs: seq<Event>)
      modifies this`procs
      ensures forall pid :: pid in procs <==>
                pid in old(procs) && pid in current && current[pid] == old(procs)[pid].start
      ensures forall pid :: pid in procs ==> procs[pid] == old(procs)[pid]
      ensures lifecycle ==> Replay(NewOnes(old(procs)), evs) == Some(NewOnes(procs))
      ensures !lifecycle ==> evs == []
    {
      evs := [];
      ghost var before := procs;
      var todo := procs.Items;
      while todo != {}
        invariant todo <= before.Items && procs.Keys <= before.Keys
        invariant forall pid :: pid in procs ==> procs[pid] == before[pid]
        invariant forall pid :: pid in before && (pid, before[pid]) in todo ==> pid in procs
        invariant forall pid :: pid in before && (pid, before[pid]) !in todo ==>
                    (pid in procs <==> pid in current && current[pid] == before[pid].start)
        invariant lifecycle ==> Replay(NewOnes(before), evs) == Some(NewOnes(procs))
        invariant !lifecycle ==> evs == []
        decreases todo
      {
        var item :| item in todo;
        var (pid, snap) := item;
        todo := todo - {item};
        if !(pid in current && current[pid] == snap.start) {
          Removed(procs, pid);
          ghost var was := procs;
          procs := procs - {pid};
          if snap.isNew && lifecycle {
            assert (pid, snap.start) in NewOnes(was);
            ReplayOne(NewOnes(before), evs, Stopped(pid, snap.start));
            evs := evs + [Stopped(pid, snap.start)];
          }
          assert !snap.isNew ==> NewOnes(procs) == NewOnes(was);
        }
      }
    }

    /** Second half: listed pids that are not tracked are new processes. */
    method AddNew(l: seq<Sample>) returns (evs: seq<Event>)
      modifies this`procs
      ensures forall pid :: pid in old(procs) ==> pid in procs && procs[pid] == old(procs)[pid]
      ensures forall pid :: pid in procs && pid !in old(procs) ==>
                procs[pid].isNew && exists k :: 0 <= k < |l| && l[k] == Sample(pid, procs[pid].start)
      ensures forall k :: 0 <= k < |l| ==> l[k].pid in procs
      ensures DistinctPids(l) ==> forall k :: 0 <= k < |l| && l[k].pid !in old(procs) ==>
                procs[l[k].pid].start == l[k].start
      ensures lifecycle ==> Replay(NewOnes(old(procs)), evs) == Some(NewOnes(procs))
      ensures !lifecycle ==> evs == []
    {
      evs := [];
      ghost var kept := procs;
      for i := 0 to |l|
        invariant forall pid :: pid in kept ==> pid in procs && procs[pid] == kept[pid]
        invariant forall pid :: pid in procs && pid !in kept ==>
          procs[pid].isNew && exists k :: 0 <= k < i && l[k] == Sample(pid, procs[pid].start)
        invariant forall k :: 0 <= k < i ==> l[k].pid in procs
        invariant DistinctPids(l) ==> forall k :: 0 <= k < i && l[k].pid !in kept ==>
                    procs[l[k].pid].start == l[k].start
        invariant lifecycle ==> Replay(NewOnes(kept), evs) == Some(NewOnes(procs))
        invariant !lifecycle ==> evs == []
      {
        var p := l[i];
        if p.pid !in procs {
          Added(procs, p.pid, p.start);
          procs := procs[p.pid := Snapshot(p.start, true)];
          if lifecycle {
            ReplayOne(NewOnes(kept), evs, Started(p.pid, p.start));
            evs := evs + [Started(p.pid, p.start)];
          }
        }
      }
    }

    /**
     poll. The tracked processes are then the listed ones; those that survived
     are untouched and the others are new; the events are exactly the changes
     among the new processes, in a possible order. A list that could not be
     read changes nothing.
     */
    method Poll(list: Option<seq<Sample>>) returns (evs: seq<Event>)
      modifies this`procs
      ensures list.None? ==> evs == [] && procs == old(procs)
      ensures list.Some? ==> forall pid :: pid in procs <==>
                exists k :: 0 <= k < |list.value| && list.value[k].pid == pid
      ensures list.Some? && DistinctPids(list.value) ==> Tracked(procs) == Listed(list.value)
      ensures list.Some? && DistinctPids(list.value) ==>
                forall pid :: pid in procs ==>
                  procs[pid] ==
                  if Survives(pid, procs[pid].start, old(procs)) then old(procs)[pid]
                  else Snapshot(procs[pid].start, true)
      ensures lifecycle ==> Replay(NewOnes(old(procs)), evs) == Some(NewOnes(procs))
      ensures !lifecycle ==> evs == []
    {
      evs := [];
      if list.None? {
        return;
      }
      var l := list.value;
      var current := Index(l);
      var stops := DropExited(current);
      ghost var kept := procs;
      var starts := AddNew(l);
      evs := stops + starts;
      if lifecycle {
        ReplayAppend(NewOnes(old(procs)), stops, starts);
      }
      forall pid | pid in procs ensures exists k :: 0 <= k < |l| && l[k].pid == pid {
        if pid in kept {
          var k :| 0 <= k < |l| && l[k] == Sample(pid, current[pid]);
        }
      }
      if DistinctPids(l) {
        assert forall k :: 0 <= k < |l| ==> procs[l[k].pid].start == l[k].start;
        SameProcesses(procs, l);
      }
    }
  }

  predicate Survives(pid: int, start: nat, procs: Procs) {
    pid in procs && procs[pid].start == start
  }

  lemma SameProcesses(procs: Procs, l: seq<Sample>)
    requires forall k :: 0 <= k < |l| ==> l[k].pid in procs && procs[l[k].pid].start == l[k].start
    requires forall pid :: pid in procs ==> exists k :: 0 <= k < |l| && l[k].pid == pid
    ensures Tracked(procs) == Listed(l)
  {
    forall x | x in Tracked(procs) ensures x in Listed(l) {
      var k :| 0 <= k < |l| && l[k].pid == x.0;
    }
    forall x | x in Listed(l) ensures x in Tracked(procs) {
      var k :| 0 <= k < |l| && (l[k].pid, l[k].start) == x;
      assert l[k].pid in procs;
    }
  }

  lemma Removed(procs: Procs, pid: int)
    requires pid in procs
    ensures NewOnes(procs - {pid}) == NewOnes(procs) - (if procs[pid].isNew then {(pid, procs[pid].start)} else {})
  {
    var q := procs - {pid};
    forall x | x in NewOnes(procs) && x.0 != pid ensures x in NewOnes(q) {
      assert x.0 in q && q[x.0] == procs[x.0];
    }
  }

  lemma Added(procs: Procs, pid: int, start: nat)
    requires pid !in procs
    ensures (pid, start) !in NewOnes(procs)
    ensures NewOnes(procs[pid := Snapshot(start, true)]) == NewOnes(procs) + {(pid, start)}
  {
    var q := procs[pid := Snapshot(start, true)];
    assert q[pid].isNew && (pid, q[pid].start) in NewOnes(q);
    forall x | x in NewOnes(procs) ensures x in NewOnes(q) {
      assert x.0 in q && q[x.0] == procs[x.0];
    }
  }

  // ---- what a log that can be replayed says about each process ----

  /** Starts minus stops of one process. */
  function Balance(log: seq<Event>, p: Process): int {
    if log == [] then 0
    else
      Balance(log[..|log| - 1], p) +
      (match log[|log| - 1]
       case Started(pid, start) => if (pid, start) == p then 1 else 0
       case Stopped(pid, start) => if (pid, start) == p then -1 else 0)
  }

  /** Starts minus stops of all. */
  function Total(log: seq<Event>): int {
    if log == [] then 0 else Total(log[..|log| - 1]) + (if log[|log| - 1].Started? then 1 else -1)
  }

  lemma {:induction false} ReplayBalances(log: seq<Event>, p: Process)
    requires Replay({}, log).Some?
    ensures Balance(log, p) == if p in Replay({}, log).value then 1 else 0
    ensures Total(log) == |Replay({}, log).value|
  {
    if log != [] {
      ReplayBalances(log[..|log| - 1], p);
    }
  }

  lemma {:induction false} ReplayPrefix(log: seq<Event>, n: nat)
    requires Replay({}, log).Some? && n <= |log|
    ensures Replay({}, log[..n]).Some?
  {
    if n < |log| {
      ReplayPrefix(log[..|log| - 1], n);
      assert log[..|log| - 1][..n] == log[..n];
    } else {
      assert log[..n] == log;
    }
  }

  /**
   For each process start and stop events alternate, beginning with a start: at
   every point of the log its balance is 0 or 1. And starts minus stops is the
   number of new processes running.
   */
  lemma EventsAlternate(log: seq<Event>, n: nat, p: Process)
    requires Replay({}, log).Some? && n <= |log|
    ensures Balance(log[..n], p) == 0 || Balance(log[..n], p) == 1
    ensures Balance(log, p) == 1 <==> p in Replay({}, log).value
    ensures Total(log) == |Replay({}, log).value|
  {
    ReplayPrefix(log, n);
    ReplayBalances(log[..n], p);
    ReplayBalances(log, p);
  }

  /** A baseline, then any lists: what the whole life of a collector reports. */
  method Watch(baseline: Option<seq<Sample>>, lists: seq<Option<seq<Sample>>>) returns (log: seq<Event>, procs: Procs)
    ensures Replay({}, log) == Some(NewOnes(procs))
    ensures |lists| > 0 && lists[|lists| - 1].Some? && DistinctPids(lists[|lists| - 1].value) ==>
              Tracked(procs) == Listed(lists[|lists| - 1].value)
  {
    var c := new Collector(true);
    c.BuildBaseline(baseline);
    log := [];
    for i := 0 to |lists|
      invariant c.lifecycle && fresh(c)
      invariant Replay({}, log) == Some(NewOnes(c.procs))
      invariant i > 0 && lists[i - 1].Some? && DistinctPids(lists[i - 1].value) ==>
                  Tracked(c.procs) == Listed(lists[i - 1].value)
    {
      ghost var before := NewOnes(c.procs);
      var evs := c.Poll(lists[i]);
      ReplayAppend({}, log, evs);
      log := log + evs;
    }
    procs := c.procs;
  }
}
