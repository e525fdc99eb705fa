/**
 Brute-force detection: a sliding window of failed logins per (IP, user), a
 suppression period after each alert, and a periodic garbage collection
 (checkBruteforce and gcBruteforceTracker in internal/events/auth/collector.go).
 */
module BruteForce {
  import opened Prelude

  datatype Key = Key(ip: string, user: string)

  /** `suppressedUntil` is None for the zero time, which every time is after. */
  datatype Entry = Entry(attempts: seq<int>, suppressedUntil: Option<int>)

  type Tracker = map<Key, Entry>

  datatype Config = Config(threshold: int, window: int, suppression: int)

  /** The times after the cutoff, in order. */
  function Recent(times: seq<int>, cutoff: int): seq<int> {
    if times == [] then []
    else Recent(times[..|times| - 1], cutoff) + (if times[|times| - 1] > cutoff then [times[|times| - 1]] else [])
  }

  function EntryOf(tr: Tracker, key: Key): Entry {
    if key in tr then tr[key] else Entry([], None)
  }

  predicate Over(until: Option<int>, now: int) {
    until.None? || now > until.value
  }

  /** checkBruteforce: the new tracker and whether an alert is raised. */
  function Check(tr: Tracker, c: Config, key: Key, now: int): (Tracker, bool) {
    if key.ip == "" then (tr, false)
    else
      var e := EntryOf(tr, key);
      var attempts := Recent(e.attempts, now - c.window) + [now];
      if |attempts| >= c.threshold && Over(e.suppressedUntil, now) then
        (tr[key := Entry(attempts, Some(now + c.suppression))], true)
      else (tr[key := e.(attempts := attempts)], false)
  }

  predicate Stale(e: Entry, c: Config, now: int) {
    Recent(e.attempts, now - c.window) == [] && Over(e.suppressedUntil, now)
  }

  /** gcBruteforceTracker */
  function Collect(tr: Tracker, c: Config, now: int): Tracker {
    map key | key in tr && !Stale(tr[key], c, now) :: tr[key].(attempts := Recent(tr[key].attempts, now - c.window))
  }

  /** The loop both run: keep what is in the window, in place. */
  method Prune(times: seq<int>, cutoff: int) returns (kept: seq<int>)
    ensures kept == Recent(times, cutoff)
  {
    kept := times;
    var j := 0;
    for i := 0 to |times|
      invariant 0 <= j <= i && |kept| == |times|
      invariant kept[..j] == Recent(times[..i], cutoff)
      invariant kept[i..] == times[i..]
    {
      assert times[..i + 1][..i] == times[..i];
      if kept[i] > cutoff {
        kept := kept[j := kept[i]];
        j := j + 1;
      }
    }
    assert times[..|times|] == times;
    kept := kept[..j];
  }

  class Detector {
    const c: Config
    var tracker: Tracker

    constructor (c: Config)
      ensures this.c == c && tracker == map[]
    {
      this.c := c;
      tracker := map[];
    }

    method CheckBruteforce(user: string, ip: string, now: int) returns (alert: bool)
      modifies this`tracker
      ensures (tracker, alert) == Check(old(tracker), c, Key(ip, user), now)
    {
      if ip == "" {
        return false;
      }
      var key := Key(ip, user);
      var e := EntryOf(tracker, key);
      var kept := Prune(e.attempts, now - c.window);
      var attempts := kept + [now];
      alert := |attempts| >= c.threshold && Over(e.suppressedUntil, now);
      tracker := tracker[key := Entry(attempts, if alert then Some(now + c.suppression) else e.suppressedUntil)];
    }

    method GcBruteforceTracker(now: int)
      modifies this`tracker
      ensures tracker == Collect(old(tracker), c, now)
    {
      ghost var before := tracker;
      var todo := tracker.Keys;
      while todo != {}
        invariant todo <= tracker.Keys <= before.Keys
        invariant forall key :: key in todo ==> tracker[key] == before[key]
        invariant forall key :: key in before && key !in todo ==>
          (key in tracker <==> !Stale(before[key], c, now))
          && (key in tracker ==> tracker[key] == before[key].(attempts := Recent(before[key].attempts, now - c.window)))
        decreases todo
      {
        var key :| key in todo;
        var e := tracker[key];
        var kept := Prune(e.attempts, now - c.window);
        if |kept| == 0 && Over(e.suppressedUntil, now) {
          tracker := tracker - {key};
        } else {
          tracker := tracker[key := e.(attempts := kept)];
        }
        todo := todo - {key};
      }
      assert tracker == Collect(before, c, now);
    }
  }

  // ---- what the detector is meant to decide ----

  /** A failed login. */
  datatype Failure = Failure(key: Key, at: int)

  /** Any interleaving of failed logins and collections. */
  datatype Op = Login(f: Failure) | Gc(at: int)

  function At(op: Op): int {
    match op
    case Login(f) => f.at
    case Gc(t) => t
  }

  function Times(past: seq<Failure>, key: Key): seq<int> {
    if past == [] then []
    else
      var f := past[|past| - 1];
      Times(past[..|past| - 1], key) + (if f.key == key then [f.at] else [])
  }

  /**
   The alert rule: the failures of this key in the window, this one included,
   reach the threshold, and no earlier alert of the key suppresses it.
   */
  ghost predicate ShouldAlert(c: Config, past: seq<Failure>, alerts: seq<bool>, f: Failure)
    requires |alerts| == |past|
  {
    && f.key.ip != ""
    && |Recent(Times(past, f.key), f.at - c.window)| + 1 >= c.threshold
    && Unsuppressed(c, past, alerts, f.key, f.at)
  }

  ghost predicate Unsuppressed(c: Config, past: seq<Failure>, alerts: seq<bool>, key: Key, now: int)
    requires |alerts| == |past|
  {
    forall j :: 0 <= j < |past| && past[j].key == key && alerts[j] ==> now > past[j].at + c.suppression
  }

  /** The alerts the rule demands for a history of failures; collections do not occur in it. */
  ghost function Alerts(c: Config, past: seq<Failure>): (r: seq<bool>)
    ensures |r| == |past|
  {
    if past == [] then []
    else
      var front := past[..|past| - 1];
      var r := Alerts(c, front);
      r + [ShouldAlert(c, front, r, past[|past| - 1])]
  }

  /** The detector over a run: its tracker and its decisions on the failures. */
  function Run(c: Config, ops: seq<Op>): (Tracker, seq<bool>) {
    if ops == [] then (map[], [])
    else
      var (tr, out) := Run(c, ops[..|ops| - 1]);
      match ops[|ops| - 1]
      case Gc(now) => (Collect(tr, c, now), out)
      case Login(f) => var (tr', alert) := Check(tr, c, f.key, f.at); (tr', out + [alert])
  }

  function Failures(ops: seq<Op>): seq<Failure> {
    if ops == [] then []
    else Failures(ops[..|ops| - 1]) + (match ops[|ops| - 1] case Gc(_) => [] case Login(f) => [f])
  }

  ghost predicate InOrder(ops: seq<Op>) {
    forall i, j :: 0 <= i < j < |ops| ==> At(ops[i]) <= At(ops[j])
  }

  // ---- windows ----

  lemma {:induction false} RecentAgain(times: seq<int>, c1: int, c2: int)
    requires c1 <= c2
    ensures Recent(Recent(times, c1), c2) == Recent(times, c2)
  {
    if times != [] {
      var front, last := times[..|times| - 1], times[|times| - 1];
      RecentAgain(front, c1, c2);
      if last > c1 {
        RecentAppend(Recent(front, c1), last, c2);
      } else {
        assert Recent(times, c1) == Recent(front, c1);
      }
    }
  }

  lemma RecentAppend(times: seq<int>, t: int, cutoff: int)
    ensures Recent(times + [t], cutoff) == Recent(times, cutoff) + (if t > cutoff then [t] else [])
  {
    assert (times + [t])[..|times|] == times;
  }

  /** An entry, or the absence of one, stands for the key's past from `now` on. */
  ghost predicate Represents(c: Config, e: Entry, past: seq<Failure>, alerts: seq<bool>, key: Key, now: int)
    requires |alerts| == |past|
  {
    && SameWindows(e.attempts, Times(past, key), now - c.window)
    && SameSilence(c, e.suppressedUntil, past, alerts, key, now)
  }

  /** From `now` on the key is silent until then exactly as its alerts demand. */
  ghost predicate SameSilence(c: Config, until: Option<int>, past: seq<Failure>, alerts: seq<bool>, key: Key, now: int)
    requires |alerts| == |past|
  {
    forall later :: later >= now ==> (Over(until, later) <==> Unsuppressed(c, past, alerts, key, later))
  }

  /** No window that starts at or after `from` tells the two apart. */
  ghost predicate SameWindows(a: seq<int>, b: seq<int>, from: int) {
    forall later :: later >= from ==> Recent(a, later) == Recent(b, later)
  }

  lemma PrunedWindows(a: seq<int>, b: seq<int>, from: int)
    requires SameWindows(a, b, from)
    ensures SameWindows(Recent(a, from), b, from)
  {
    forall later | later >= from ensures Recent(Recent(a, from), later) == Recent(b, later) {
      RecentAgain(a, from, later);
    }
  }

  ghost predicate Tracks(c: Config, tr: Tracker, past: seq<Failure>, alerts: seq<bool>, now: int)
    requires |alerts| == |past|
  {
    forall key: Key :: key.ip != "" ==> Represents(c, EntryOf(tr, key), past, alerts, key, now)
  }

  lemma TracksLater(c: Config, tr: Tracker, past: seq<Failure>, alerts: seq<bool>, now: int, now': int)
    requires |alerts| == |past| && Tracks(c, tr, past, alerts, now) && now <= now'
    ensures Tracks(c, tr, past, alerts, now')
  {
    forall key: Key | key.ip != "" ensures Represents(c, EntryOf(tr, key), past, alerts, key, now') {
      assert Represents(c, EntryOf(tr, key), past, alerts, key, now);
    }
  }

  lemma CollectTracks(c: Config, tr: Tracker, past: seq<Failure>, alerts: seq<bool>, now: int)
    requires |alerts| == |past| && Tracks(c, tr, past, alerts, now)
    ensures Tracks(c, Collect(tr, c, now), past, alerts, now)
  {
    var tr' := Collect(tr, c, now);
    forall key: Key | key.ip != "" ensures Represents(c, EntryOf(tr', key), past, alerts, key, now) {
      assert Represents(c, EntryOf(tr, key), past, alerts, key, now);
      CollectedEntry(tr, c, key, now);
      CollectedRepresents(c, EntryOf(tr, key), EntryOf(tr', key), past, alerts, key, now);
    }
  }

  /** A key's entry is pruned; it is removed only when nothing is left of it. */
  lemma CollectedEntry(tr: Tracker, c: Config, key: Key, now: int)
    ensures var e, e' := EntryOf(tr, key), EntryOf(Collect(tr, c, now), key);
            && e'.attempts == Recent(e.attempts, now - c.window)
            && (e'.suppressedUntil == e.suppressedUntil || (e'.suppressedUntil.None? && Over(e.suppressedUntil, now)))
  {
  }

  lemma CollectedRepresents(c: Config, e: Entry, e': Entry, past: seq<Failure>, alerts: seq<bool>, key: Key, now: int)
    requires |alerts| == |past| && Represents(c, e, past, alerts, key, now)
    requires e'.attempts == Recent(e.attempts, now - c.window)
    requires e'.suppressedUntil == e.suppressedUntil || (e'.suppressedUntil.None? && Over(e.suppressedUntil, now))
    ensures Represents(c, e', past, alerts, key, now)
  {
    PrunedWindows(e.attempts, Times(past, key), now - c.window);
    SilenceStays(c, e.suppressedUntil, e'.suppressedUntil, past, alerts, key, now);
  }

  lemma SilenceStays(
    c: Config, until: Option<int>, until': Option<int>, past: seq<Failure>, alerts: seq<bool>, key: Key, now: int)
    requires |alerts| == |past| && SameSilence(c, until, past, alerts, key, now)
    requires until' == until || (until'.None? && Over(until, now))
    ensures SameSilence(c, until', past, alerts, key, now)
  {
    forall later | later >= now ensures Over(until', later) <==> Unsuppressed(c, past, alerts, key, later) {
      assert Over(until, later) <==> Unsuppressed(c, past, alerts, key, later);
    }
  }

  lemma CheckTracks(c: Config, tr: Tracker, past: seq<Failure>, alerts: seq<bool>, f: Failure)
    requires |alerts| == |past| && Tracks(c, tr, past, alerts, f.at)
    requires forall j :: 0 <= j < |past| ==> past[j].at <= f.at
    ensures Check(tr, c, f.key, f.at).1 == ShouldAlert(c, past, alerts, f)
    ensures Tracks(c, Check(tr, c, f.key, f.at).0, past + [f], alerts + [Check(tr, c, f.key, f.at).1], f.at)
  {
    var (tr', alert) := Check(tr, c, f.key, f.at);
    if f.key.ip != "" {
      assert Represents(c, EntryOf(tr, f.key), past, alerts, f.key, f.at);
    }
    forall key: Key | key.ip != "" ensures Represents(c, EntryOf(tr', key), past + [f], alerts + [alert], key, f.at) {
      assert Represents(c, EntryOf(tr, key), past, alerts, key, f.at);
      assert (past + [f])[..|past|] == past;
      if key == f.key {
        CheckedEntry(c, EntryOf(tr, key), past, alerts, f, alert);
      } else {
        OtherEntry(c, EntryOf(tr, key), past, alerts, f, alert, key);
      }
    }
  }

  lemma OtherEntry(c: Config, e: Entry, past: seq<Failure>, alerts: seq<bool>, f: Failure, alert: bool, key: Key)
    requires |alerts| == |past| && key != f.key && Represents(c, e, past, alerts, key, f.at)
    ensures Represents(c, e, past + [f], alerts + [alert], key, f.at)
  {
    assert (past + [f])[..|past|] == past;
    assert Times(past + [f], key) == Times(past, key);
    forall later | later >= f.at
      ensures Unsuppressed(c, past + [f], alerts + [alert], key, later) <==> Unsuppressed(c, past, alerts, key, later)
    {
      UnsuppressedAppend(c, past, alerts, f, alert, key, later);
    }
  }

  lemma UnsuppressedAppend(
    c: Config, past: seq<Failure>, alerts: seq<bool>, f: Failure, alert: bool, key: Key, now: int)
    requires |alerts| == |past|
    ensures Unsuppressed(c, past + [f], alerts + [alert], key, now) <==>
            Unsuppressed(c, past, alerts, key, now) && (f.key == key && alert ==> now > f.at + c.suppression)
  {
    var p, a := past + [f], alerts + [alert];
    if Unsuppressed(c, p, a, key, now) {
      forall j | 0 <= j < |past| && past[j].key == key && alerts[j] ensures now > past[j].at + c.suppression {
        assert p[j] == past[j] && a[j] == alerts[j];
      }
      assert p[|past|] == f && a[|past|] == alert;
    }
    if Unsuppressed(c, past, alerts, key, now) && (f.key == key && alert ==> now > f.at + c.suppression) {
      forall j | 0 <= j < |p| && p[j].key == key && a[j] ensures now > p[j].at + c.suppression {
        if j < |past| { assert p[j] == past[j] && a[j] == alerts[j]; }
      }
    }
  }

  /** The new entry of the key that was checked. */
  function Checked(c: Config, e: Entry, at: int, alert: bool): Entry {
    Entry(Recent(e.attempts, at - c.window) + [at], if alert then Some(at + c.suppression) else e.suppressedUntil)
  }

  lemma CheckedEntry(c: Config, e: Entry, past: seq<Failure>, alerts: seq<bool>, f: Failure, alert: bool)
    requires |alerts| == |past| && Represents(c, e, past, alerts, f.key, f.at)
    requires forall j :: 0 <= j < |past| ==> past[j].at <= f.at
    ensures Represents(c, Checked(c, e, f.at, alert), past + [f], alerts + [alert], f.key, f.at)
  {
    TimesAppend(past, f);
    AppendedWindows(e.attempts, Times(past, f.key), f.at - c.window, f.at);
    CheckedSilence(c, e.suppressedUntil, Checked(c, e, f.at, alert).suppressedUntil, past, alerts, f, alert);
  }

  lemma TimesAppend(past: seq<Failure>, f: Failure)
    ensures Times(past + [f], f.key) == Times(past, f.key) + [f.at]
  {
    assert (past + [f])[..|past|] == past;
  }

  lemma AppendedWindows(a: seq<int>, b: seq<int>, from: int, t: int)
    requires SameWindows(a, b, from)
    ensures SameWindows(Recent(a, from) + [t], b + [t], from)
  {
    forall later | later >= from ensures Recent(Recent(a, from) + [t], later) == Recent(b + [t], later) {
      RecentAppend(Recent(a, from), t, later);
      RecentAgain(a, from, later);
      RecentAppend(b, t, later);
    }
  }

  lemma CheckedSilence(
    c: Config, was: Option<int>, until: Option<int>, past: seq<Failure>, alerts: seq<bool>, f: Failure, alert: bool)
    requires |alerts| == |past| && until == if alert then Some(f.at + c.suppression) else was
    requires forall j :: 0 <= j < |past| ==> past[j].at <= f.at
    requires SameSilence(c, was, past, alerts, f.key, f.at)
    ensures SameSilence(c, until, past + [f], alerts + [alert], f.key, f.at)
  {
    forall later | later >= f.at
      ensures Over(until, later) <==> Unsuppressed(c, past + [f], alerts + [alert], f.key, later)
    {
      UnsuppressedAppend(c, past, alerts, f, alert, f.key, later);
      assert later > f.at + c.suppression ==> Unsuppressed(c, past, alerts, f.key, later);
    }
  }

  // ---- the main results ----

  /** After a run whose last time is `now` the tracker stands for the failures, and the decisions were right. */
  ghost predicate Faithful(c: Config, ops: seq<Op>, now: int) {
    && Run(c, ops).1 == Alerts(c, Failures(ops))
    && Tracks(c, Run(c, ops).0, Failures(ops), Alerts(c, Failures(ops)), now)
    && forall j :: 0 <= j < |Failures(ops)| ==> Failures(ops)[j].at <= now
  }

  lemma RunAppend(c: Config, ops: seq<Op>, op: Op)
    ensures op.Gc? ==> Run(c, ops + [op]) == (Collect(Run(c, ops).0, c, op.at), Run(c, ops).1)
    ensures op.Login? ==>
              var (tr, alert) := Check(Run(c, ops).0, c, op.f.key, op.f.at);
              Run(c, ops + [op]) == (tr, Run(c, ops).1 + [alert])
    ensures Failures(ops + [op]) == Failures(ops) + if op.Login? then [op.f] else []
  {
    assert (ops + [op])[..|ops|] == ops;
  }

  lemma FaithfulGc(c: Config, ops: seq<Op>, t: int)
    requires Faithful(c, ops, t)
    ensures Faithful(c, ops + [Gc(t)], t)
  {
    RunAppend(c, ops, Gc(t));
    CollectTracks(c, Run(c, ops).0, Failures(ops), Run(c, ops).1, t);
    assert Failures(ops + [Gc(t)]) == Failures(ops);
  }

  lemma FaithfulLogin(c: Config, ops: seq<Op>, f: Failure)
    requires Faithful(c, ops, f.at)
    ensures Faithful(c, ops + [Login(f)], f.at)
  {
    RunAppend(c, ops, Login(f));
    CheckTracks(c, Run(c, ops).0, Failures(ops), Run(c, ops).1, f);
    AlertsAppend(c, Failures(ops), f);
  }

  lemma FaithfulStep(c: Config, ops: seq<Op>, op: Op, now: int)
    requires Faithful(c, ops, now) && now <= At(op)
    ensures Faithful(c, ops + [op], At(op))
  {
    TracksLater(c, Run(c, ops).0, Failures(ops), Run(c, ops).1, now, At(op));
    if op.Gc? { FaithfulGc(c, ops, op.at); } else { FaithfulLogin(c, ops, op.f); }
  }

  lemma AlertsAppend(c: Config, past: seq<Failure>, f: Failure)
    ensures Alerts(c, past + [f]) == Alerts(c, past) + [ShouldAlert(c, past, Alerts(c, past), f)]
  {
    assert (past + [f])[..|past|] == past;
  }

  lemma {:induction false} RunIsFaithful(c: Config, ops: seq<Op>)
    requires InOrder(ops)
    ensures Faithful(c, ops, if ops == [] then 0 else At(ops[|ops| - 1]))
  {
    if ops != [] {
      var front, last := ops[..|ops| - 1], ops[|ops| - 1];
      RunIsFaithful(c, front);
      assert ops == front + [last];
      FaithfulStep(c, front, last, if front == [] then Min(0, At(last)) else At(front[|front| - 1]));
    }
  }

  /**
   For non-decreasing times, collections at any points change no decision: the
   alerts are those the rule demands of the failures alone.
   */
  lemma CollectionIsInvisible(c: Config, ops: seq<Op>, ops': seq<Op>)
    requires InOrder(ops) && InOrder(ops') && Failures(ops) == Failures(ops')
    ensures Run(c, ops).1 == Run(c, ops').1 == Alerts(c, Failures(ops))
  {
    RunIsFaithful(c, ops);
    RunIsFaithful(c, ops');
  }

  /** Two alerts of one key are more than the suppression period apart. */
  lemma {:induction false} AlertsAreApart(c: Config, past: seq<Failure>, i: nat, j: nat)
    requires i < j < |past| && past[i].key == past[j].key && Alerts(c, past)[i] && Alerts(c, past)[j]
    ensures past[j].at > past[i].at + c.suppression
    decreases |past|
  {
    var front := past[..|past| - 1];
    if j < |past| - 1 {
      AlertsAreApart(c, front, i, j);
    }
  }
}
