/**
 Self-upgrade with rollback: the unprivileged agent (internal/upgrade) and the
 root pre-start script (systemd/apply-upgrade.sh) talk through marker files.
 A run of the script is one step; a staged binary is the verified release of
 the tag it was staged for; nobody else touches the upgrade directory.
 */
module Upgrade {
  import opened Prelude
  import opened SemVer

  /** An agent binary: the version it was built as, and its contents. */
  datatype Binary = Binary(version: string, contents: nat)

  /** The installed binary and the upgrade directory. */
  datatype Disk = Disk(
    binary: Binary, pending: bool, staged: Option<Binary>, backup: Option<Binary>, applied: bool, committed: bool)

  /** What one run of apply-upgrade.sh leaves, and whether the service then starts. */
  datatype Outcome = Outcome(disk: Disk, starts: bool)

  function RollBack(d: Disk): Disk {
    d.(binary := if d.backup.Some? then d.backup.value else d.binary,
       applied := false, pending := false, staged := None, backup := None)
  }

  function TidyUp(d: Disk): Disk {
    if d.committed then d.(applied := false, committed := false, backup := None) else d
  }

  function Apply(d: Disk, unitChanged: bool): Outcome {
    if !d.pending then Outcome(d, true)
    else if d.staged.None? then Outcome(d.(pending := false), true)
    else if unitChanged then Outcome(d, false)
    else
      var backedUp := d.(backup := Some(d.binary));
      Outcome(backedUp.(binary := d.staged.value, pending := false, staged := None, applied := true), true)
  }

  /** `unitChanged`: a new service unit was installed just now, so the start must be repeated. */
  function RunScript(d: Disk, unitChanged: bool): Outcome {
    if !d.pending && !d.applied && !d.committed then Outcome(d, true)
    else if d.applied && !d.committed then Outcome(RollBack(d), true)
    else Apply(TidyUp(d), unitChanged)
  }

  /** The script stops a start only right after it installed a new unit for a staged upgrade. */
  lemma StartsUnless(d: Disk, unitChanged: bool)
    ensures !RunScript(d, unitChanged).starts <==> unitChanged && !OnTrial(d) && d.pending && d.staged.Some?
  {
  }

  /**
   What is installed and marked afterwards, for every state of the directory:
   the staged binary exactly when it may be applied, the backup exactly when a
   trial failed; a trial is on exactly after applying, with the old binary as
   its backup; nothing stays pending but what the repeated start will apply.
   */
  lemma ScriptLeaves(d: Disk, unitChanged: bool)
    ensures var o := RunScript(d, unitChanged);
            var applies := !OnTrial(d) && d.pending && d.staged.Some? && !unitChanged;
            && (applies ==> o.disk.binary == d.staged.value && o.disk.backup == Some(d.binary) && o.disk.staged == None)
            && (OnTrial(d) && d.backup.Some? ==> o.disk.binary == d.backup.value)
            && (!applies && !(OnTrial(d) && d.backup.Some?) ==> o.disk.binary == d.binary)
            && (!applies && (d.applied || d.committed) ==> o.disk.backup == None)
            && (!applies && !d.applied && !d.committed ==> o.disk.backup == d.backup)
            && (OnTrial(d) ==> o.disk.staged == None)
            && (!OnTrial(d) && !applies ==> o.disk.staged == d.staged)
            && !o.disk.committed && o.disk.applied == applies && o.disk.pending == !o.starts
  {
  }

  // ---- the same as an object: file operations one after the other ----

  class Host {
    var binary: Binary
    var pending: bool
    var staged: Option<Binary>
    var backup: Option<Binary>
    var applied: bool
    var committed: bool

    constructor (b: Binary)
      ensures Files() == Disk(b, false, None, None, false, false)
    {
      binary := b;
      pending, staged, backup, applied, committed := false, None, None, false, false;
    }

    function Files(): Disk
      reads this
    {
      Disk(binary, pending, staged, backup, applied, committed)
    }

    /** apply-upgrade.sh */
    method ApplyUpgrade(unitChanged: bool) returns (exitCode: int)
      modifies this
      ensures Files() == RunScript(old(Files()), unitChanged).disk
      ensures exitCode == (if RunScript(old(Files()), unitChanged).starts then 0 else 1)
      ensures exitCode != 0 <==> unitChanged && !(old(applied) && !old(committed)) && old(pending) && old(staged).Some?
    {
      if !pending && !applied && !committed {
        return 0;
      }
      if applied && !committed {
        if backup.Some? {
          binary := backup.value;
        }
        applied, pending, staged, backup := false, false, None, None;
        return 0;
      }
      if committed {
        applied, committed, backup := false, false, None;
      }
      if pending {
        if staged.None? {
          pending := false;
          return 0;
        }
        if unitChanged {
          return 1;
        }
        backup := Some(binary);
        binary := staged.value;
        pending, staged := false, None;
        applied := true;
      }
      return 0;
    }

    /**
     RunOnce up to the exit: true when the process must exit to be upgraded.
     `latest` is the released binary of the newest tag, `download` whether it
     could be downloaded and verified, `written` whether the marker was written;
     a failed write may leave a marker, and the staged binary may not be removable.
     */
    method RunOnce(current: string, disabled: bool, latest: Option<Binary>, download: bool, written: bool,
                   leftMarker: bool, removed: bool) returns (exits: bool)
      modifies this
      ensures exits <==>
              && !disabled && current != "dev" && latest.Some? && Newer(current, latest.value.version)
              && download && written
      ensures exits ==> Files() == old(Files()).(staged := latest, pending := true)
      ensures var stages :=
                !disabled && current != "dev" && latest.Some? && Newer(current, latest.value.version) && download;
              && (!stages ==> Files() == old(Files()))
              && (stages && !written ==>
                    Files() == old(Files()).(staged := if removed then None else latest,
                                             pending := old(pending) || leftMarker))
              && (stages ==>
                    Files() == Staging(Running(old(Files())), latest.value, written, leftMarker, removed).disk)
    {
      if disabled || current == "dev" || latest.None? {
        return false;
      }
      var newer := SemVer.IsNewer(current, latest.value.version);
      if newer.Err? || !newer.value || !download {
        return false;
      }
      staged := latest;
      if !written {
        pending := pending || leftMarker;
        if removed {
          staged := None;
        }
        return false;
      }
      pending := true;
      return true;
    }

    /** Commit: only an applied upgrade is committed. */
    method Commit(writeOk: bool)
      modifies this`committed
      ensures committed == (old(committed) || (applied && writeOk))
      ensures Files() == Next(Running(old(Files())), Step.Commit(writeOk)).disk
    {
      if !applied {
        return;
      }
      if writeOk {
        committed := true;
      }
    }
  }

  // ---- every interleaving of starts, stops, staging and commits ----

  /**
   A running agent. `marking`: staged, marker not yet written. `pushed`: the
   first push succeeded, commit not yet tried.
   */
  datatype Process = Process(binary: Binary, marking: bool, pushed: bool, tried: bool)

  /** `goods` is every binary that proved itself: the installed one, then each that committed. */
  datatype System = System(disk: Disk, process: Option<Process>, goods: Goods)

  type Goods = g: seq<Binary> | |g| > 0 witness [Binary("", 0)]

  datatype Step =
    | Boot(unitChanged: bool)
    | Stage(latest: Binary)
    | MarkPending
    | MarkFails(leftMarker: bool, removed: bool)
    | FirstPush
    | Commit(writeOk: bool)
    | Stop

  ghost predicate Enabled(s: System, step: Step) {
    match step
    case Boot(_) => s.process.None?
    case Stage(b) => s.process.Some? && s.process.value.binary.version != "dev"
      && Newer(s.process.value.binary.version, b.version)
    case MarkPending => s.process.Some? && s.process.value.marking
    case MarkFails(_, _) => s.process.Some? && s.process.value.marking
    case FirstPush => s.process.Some? && !s.process.value.pushed && !s.process.value.tried
    case Commit(_) => s.process.Some? && s.process.value.pushed && !s.process.value.tried
    case Stop => s.process.Some?
  }

  function Next(s: System, step: Step): System
    requires !step.Boot? ==> s.process.Some?
  {
    match step
    case Boot(unitChanged) =>
      var o := RunScript(s.disk, unitChanged);
      s.(disk := o.disk, process := if o.starts then Some(Process(o.disk.binary, false, false, false)) else None)
    case Stage(b) =>
      s.(disk := s.disk.(staged := Some(b)), process := Some(s.process.value.(marking := true)))
    case MarkPending =>
      s.(disk := s.disk.(pending := true), process := Some(s.process.value.(marking := false)))
    case MarkFails(left, removed) =>
      s.(disk := s.disk.(pending := s.disk.pending || left, staged := if removed then None else s.disk.staged),
         process := Some(s.process.value.(marking := false)))
    case FirstPush => s.(process := Some(s.process.value.(pushed := true)))
    case Commit(ok) =>
      var p := s.process.value.(tried := true);
      if s.disk.applied && ok then
        s.(disk := s.disk.(committed := true), process := Some(p), goods := s.goods + [p.binary])
      else s.(process := Some(p))
    case Stop => s.(process := None)
  }

  /** The installed binary is running on the disk. */
  function Running(d: Disk): System {
    System(d, Some(Process(d.binary, false, false, false)), [d.binary])
  }

  /** The two steps of staging a release. */
  function Staging(s: System, b: Binary, written: bool, left: bool, removed: bool): System
    requires s.process.Some?
  {
    Next(Next(s, Stage(b)), if written then MarkPending else MarkFails(left, removed))
  }

  /**
   A process is marking from a staging to its mark, has pushed since its first
   push, and has tried to commit since its only attempt.
   */
  lemma FlagsFollow(s: System, step: Step)
    requires Enabled(s, step) && Next(s, step).process.Some?
    ensures var p, q := s.process, Next(s, step).process.value;
            && (q.marking <==> step.Stage? || (p.Some? && p.value.marking && !step.MarkPending? && !step.MarkFails?))
            && (q.pushed <==> step.FirstPush? || (p.Some? && p.value.pushed))
            && (q.tried <==> step.Commit? || (p.Some? && p.value.tried))
            && (p.Some? ==> q.binary == p.value.binary)
  {
  }

  function Last(goods: Goods): Binary {
    goods[|goods| - 1]
  }

  /** Applied, and nothing proves it healthy yet. */
  predicate OnTrial(d: Disk) {
    d.applied && !d.committed
  }

  /** Each good binary is a later version than every good one before it. */
  ghost predicate Rising(goods: Goods) {
    forall i, j :: 0 <= i < j < |goods| ==> Newer(goods[i].version, goods[j].version)
  }

  ghost predicate Inv(s: System) {
    && Rising(s.goods)
    && (s.process.Some? ==> s.process.value.binary == s.disk.binary)
    && (s.disk.committed ==> s.disk.applied)
    && (s.disk.committed && s.process.Some? ==> s.process.value.tried)
    && (OnTrial(s.disk) ==> s.disk.backup == Some(Last(s.goods)) && Newer(Last(s.goods).version, s.disk.binary.version))
    && (!OnTrial(s.disk) ==> s.disk.binary == Last(s.goods))
    && (s.disk.staged.Some? ==> Newer(s.disk.binary.version, s.disk.staged.value.version))
  }

  /** A fresh installation. */
  predicate Init(s: System) {
    s.disk == Disk(s.disk.binary, false, None, None, false, false) && s.process.None? && s.goods == [s.disk.binary]
  }

  lemma NewerTransitive(a: string, b: string, c: string)
    requires Newer(a, b) && Newer(b, c)
    ensures Newer(a, c)
  {
    AfterTransitive(Parse(a).value, Parse(b).value, Parse(c).value);
  }

  lemma NewerIrreflexive(a: string)
    ensures !Newer(a, a)
  {
    if Parse(a).Some? {
      AfterIrreflexive(Parse(a).value);
    }
  }

  lemma RisingAppend(goods: Goods, b: Binary)
    requires Rising(goods) && Newer(Last(goods).version, b.version)
    ensures Rising(goods + [b])
  {
    var g := goods + [b];
    forall i, j | 0 <= i < j < |g| ensures Newer(g[i].version, g[j].version) {
      if j == |goods| && i < |goods| - 1 {
        NewerTransitive(g[i].version, Last(goods).version, b.version);
      }
    }
  }

  lemma StepKeeps(s: System, step: Step)
    requires Inv(s) && Enabled(s, step)
    ensures Inv(Next(s, step))
  {
    if step.Commit? && step.writeOk && OnTrial(s.disk) {
      RisingAppend(s.goods, s.disk.binary);
    }
  }

  ghost predicate IsRun(states: seq<System>, steps: seq<Step>) {
    && |states| == |steps| + 1 && Init(states[0])
    && forall k :: 0 <= k < |steps| ==> Enabled(states[k], steps[k]) && states[k + 1] == Next(states[k], steps[k])
  }

  lemma {:induction false} RunKeeps(states: seq<System>, steps: seq<Step>, k: nat)
    requires IsRun(states, steps) && k <= |steps|
    ensures Inv(states[k])
  {
    if k > 0 {
      RunKeeps(states, steps, k - 1);
      StepKeeps(states[k - 1], steps[k - 1]);
    }
  }

  // ---- the main results ----

  /**
   Every process ever launched runs the last good binary, or one that was
   applied at this very start and whose backup is the last good binary.
   */
  lemma LaunchesAreSafe(states: seq<System>, steps: seq<Step>, k: nat)
    requires IsRun(states, steps) && k < |steps| && steps[k].Boot? && states[k + 1].process.Some?
    ensures var s, s' := states[k], states[k + 1];
            var launched := s'.process.value.binary;
            || (launched == Last(s'.goods) && !OnTrial(s'.disk))
            || (s.disk.staged == Some(launched) && s.disk.pending && OnTrial(s'.disk)
                  && s'.disk.backup == Some(Last(s'.goods)))
  {
    RunKeeps(states, steps, k);
  }

  /** A binary on trial: nothing but a commit or the next start ends the trial. */
  lemma {:induction false} TrialLasts(states: seq<System>, steps: seq<Step>, j: nat, k: nat)
    requires IsRun(states, steps) && j <= k <= |steps| && OnTrial(states[j].disk)
    requires forall m :: j <= m < k ==> !steps[m].Boot? && steps[m] != Commit(true)
    ensures OnTrial(states[k].disk) && states[k].goods == states[j].goods
              && states[k].disk.binary == states[j].disk.binary
    decreases k - j
  {
    if j < k {
      TrialLasts(states, steps, j, k - 1);
    }
  }

  /**
   An applied binary that stops before its commit is replaced at the next start
   by the last good one; whatever it staged is thrown away.
   */
  lemma TrialFailsBack(states: seq<System>, steps: seq<Step>, j: nat, k: nat)
    requires IsRun(states, steps) && j <= k < |steps| && OnTrial(states[j].disk)
    requires (forall m :: j <= m < k ==> !steps[m].Boot? && steps[m] != Commit(true)) && steps[k].Boot?
    ensures var s := states[k + 1];
            && s.disk == Disk(Last(states[j].goods), false, None, None, false, false)
            && s.process == Some(Process(Last(states[j].goods), false, false, false))
            && s.disk.binary != states[j].disk.binary && s.goods == states[j].goods
  {
    TrialLasts(states, steps, j, k);
    RunKeeps(states, steps, k);
    NewerIrreflexive(states[j].disk.binary.version);
  }

  /** Good versions strictly increase over every run. */
  lemma GoodVersionsRise(states: seq<System>, steps: seq<Step>, k: nat, i: nat, j: nat)
    requires IsRun(states, steps) && k <= |steps| && i < j < |states[k].goods|
    ensures Newer(states[k].goods[i].version, states[k].goods[j].version)
    ensures states[k].goods[i] != states[k].goods[j]
  {
    RunKeeps(states, steps, k);
    NewerIrreflexive(states[k].goods[i].version);
  }

  /**
   An applied binary survives the next start (with nothing staged) if and only
   if its commit was written; the backup is there whenever it is needed.
   */
  lemma KeptIffCommitted(states: seq<System>, steps: seq<Step>, k: nat, unitChanged: bool)
    requires IsRun(states, steps) && k <= |steps| && states[k].disk.applied && !states[k].disk.pending
    ensures var d := states[k].disk;
            && (RunScript(d, unitChanged).disk.binary == d.binary <==> d.committed)
            && (!d.committed ==> d.backup.Some?)
  {
    RunKeeps(states, steps, k);
    NewerIrreflexive(states[k].disk.binary.version);
  }

  /** With nothing on trial, a staged upgrade is installed at the next start that finds the unit current. */
  lemma StagedIsApplied(states: seq<System>, steps: seq<Step>, k: nat)
    requires IsRun(states, steps) && k <= |steps|
    requires var d := states[k].disk; d.pending && d.staged.Some? && !OnTrial(d)
    ensures var d := states[k].disk;
            && RunScript(d, false).disk == Disk(d.staged.value, false, None, Some(Last(states[k].goods)), true, false)
            && !RunScript(d, true).starts
            && RunScript(RunScript(d, true).disk, false) == RunScript(d, false)
  {
    RunKeeps(states, steps, k);
  }

  // ---- an upgrade that goes well ----

  function GoodRun(a: Binary, b: Binary, k: nat): System
    requires k <= 7
  {
    var installed := Disk(a, false, None, None, false, false);
    var trial := Disk(b, false, None, Some(a), true, false);
    match k
    case 0 => System(installed, None, [a])
    case 1 => System(installed, Some(Process(a, false, false, false)), [a])
    case 2 => System(installed.(staged := Some(b)), Some(Process(a, true, false, false)), [a])
    case 3 => System(installed.(staged := Some(b), pending := true), Some(Process(a, false, false, false)), [a])
    case 4 => System(installed.(staged := Some(b), pending := true), None, [a])
    case 5 => System(trial, Some(Process(b, false, false, false)), [a])
    case 6 => System(trial, Some(Process(b, false, true, false)), [a])
    case _ => System(trial.(committed := true), Some(Process(b, false, true, true)), [a, b])
  }

  function GoodStep(b: Binary, k: nat): Step
    requires k < 7
  {
    match k
    case 0 => Boot(false)
    case 1 => Stage(b)
    case 2 => MarkPending
    case 3 => Stop
    case 4 => Boot(false)
    case 5 => FirstPush
    case _ => Commit(true)
  }

  /** Every newer release has a run from a fresh installation in which it is tried and committed. */
  lemma UpgradeSucceeds(a: Binary, b: Binary)
    requires a.version != "dev" && Newer(a.version, b.version)
    ensures var states := seq(8, k requires 0 <= k < 8 => GoodRun(a, b, k));
            var steps := seq(7, k requires 0 <= k < 7 => GoodStep(b, k));
            && IsRun(states, steps) && OnTrial(states[5].disk) && Last(states[7].goods) == b
            && RunScript(states[7].disk, false) == Outcome(Disk(b, false, None, None, false, false), true)
  {
    forall k | 0 <= k < 7
      ensures Enabled(GoodRun(a, b, k), GoodStep(b, k))
      ensures GoodRun(a, b, k + 1) == Next(GoodRun(a, b, k), GoodStep(b, k))
    {
      GoodStepGoes(a, b, k);
    }
  }

  lemma GoodStepGoes(a: Binary, b: Binary, k: nat)
    requires k < 7 && a.version != "dev" && Newer(a.version, b.version)
    ensures Enabled(GoodRun(a, b, k), GoodStep(b, k)) && GoodRun(a, b, k + 1) == Next(GoodRun(a, b, k), GoodStep(b, k))
  {
    if k == 6 { assert [a] + [b] == [a, b]; }
  }
}
