/**
 Remote configuration (internal/remote and its use in cmd/yomins-agent/main.go):
 fetched, saved, and applied by restarting the agent.
 */
module RemoteConfig {
  import opened Prelude

  // ---- configurations; None is a JSON field left out ----

  datatype Logs = Logs(
    enabled: Option<bool>, paths: Option<seq<string>>, exclude: Option<seq<string>>, redact: Option<seq<string>>)

  datatype Integrations = Integrations(
    enabled: Option<bool>, nginxStatusURL: Option<string>, scrapeURLs: Option<seq<string>>)

  datatype Events = Events(
    enabled: Option<bool>, auth: Option<bool>, process: Option<bool>, network: Option<bool>, system: Option<bool>,
    processLifecycle: Option<bool>)

  datatype Config = Config(
    interval: Option<string>, disabledCollectors: Option<seq<string>>, logs: Option<Logs>,
    integrations: Option<Integrations>, events: Option<Events>)

  const NOTHING := Config(None, None, None, None, None)

  datatype Stored = Stored(version: string, config: Config)

  /** omitempty leaves an empty list out. */
  function Compact(l: Option<seq<string>>): Option<seq<string>> {
    if l == Some([]) then None else l
  }

  /** A configuration after it was written as JSON and read again. */
  function Json(c: Config): Config {
    c.(disabledCollectors := Compact(c.disabledCollectors),
       logs := match c.logs
               case None => None
               case Some(l) => Some(Logs(l.enabled, Compact(l.paths), Compact(l.exclude), Compact(l.redact))),
       integrations := match c.integrations
                       case None => None
                       case Some(i) => Some(i.(scrapeURLs := Compact(i.scrapeURLs))))
  }

  /** sameEffect: both are written the same way. */
  predicate SameEffect(a: Config, b: Config) {
    Json(a) == Json(b)
  }

  lemma JsonStable(c: Config)
    ensures Json(Json(c)) == Json(c)
  {
  }

  /** Two lists of the same items, one possibly left out and the other empty. */
  predicate Alike(x: Option<seq<string>>, y: Option<seq<string>>) {
    x == y || (x == None && y == Some([])) || (x == Some([]) && y == None)
  }

  /** What counts as set to the same: everything but whether an empty list is there. */
  lemma SameEffectIs(a: Config, b: Config)
    ensures SameEffect(a, b) <==>
            && a.interval == b.interval && a.events == b.events && Alike(a.disabledCollectors, b.disabledCollectors)
            && (a.logs.Some? <==> b.logs.Some?)
            && (a.logs.Some? && b.logs.Some? ==>
                  var x, y := a.logs.value, b.logs.value;
                  x.enabled == y.enabled && Alike(x.paths, y.paths) && Alike(x.exclude, y.exclude)
                  && Alike(x.redact, y.redact))
            && (a.integrations.Some? <==> b.integrations.Some?)
            && (a.integrations.Some? && b.integrations.Some? ==>
                  var x, y := a.integrations.value, b.integrations.value;
                  x.enabled == y.enabled && x.nginxStatusURL == y.nginxStatusURL && Alike(x.scrapeURLs, y.scrapeURLs))
  {
    AlikeIff(a.disabledCollectors, b.disabledCollectors);
    if a.logs.Some? && b.logs.Some? {
      AlikeIff(a.logs.value.paths, b.logs.value.paths);
      AlikeIff(a.logs.value.exclude, b.logs.value.exclude);
      AlikeIff(a.logs.value.redact, b.logs.value.redact);
    }
    if a.integrations.Some? && b.integrations.Some? {
      AlikeIff(a.integrations.value.scrapeURLs, b.integrations.value.scrapeURLs);
    }
  }

  lemma AlikeIff(x: Option<seq<string>>, y: Option<seq<string>>)
    ensures Compact(x) == Compact(y) <==> Alike(x, y)
  {
  }

  // ---- validation ----

  /** Nanoseconds, as in a Go Duration. */
  const SECOND := 1_000_000_000

  /** What Go's time, regexp and filepath packages say of a text; `duration` is time.ParseDuration. */
  datatype Checks = Checks(
    duration: string -> Option<int>, pattern: string -> bool, typedPath: string -> bool, absolute: string -> bool)

  function Items(l: Option<seq<string>>): seq<string> {
    match l case None => [] case Some(s) => s
  }

  predicate All(s: seq<string>, p: string -> bool) {
    forall i :: 0 <= i < |s| ==> p(s[i])
  }

  /** From ten seconds to ten minutes. */
  predicate InRange(d: Option<int>) {
    d.Some? && 10 * SECOND <= d.value <= 600 * SECOND
  }

  predicate Valid(k: Checks, c: Config) {
    && (c.interval.Some? ==> InRange(k.duration(c.interval.value)))
    && (c.logs.Some? ==>
          && All(Items(c.logs.value.redact), k.pattern)
          && All(Items(c.logs.value.paths), k.typedPath)
          && All(Items(c.logs.value.exclude), k.absolute))
  }

  method CheckAll(s: seq<string>, p: string -> bool) returns (ok: bool)
    ensures ok <==> All(s, p)
  {
    for i := 0 to |s|
      invariant forall j :: 0 <= j < i ==> p(s[j])
    {
      if !p(s[i]) {
        return false;
      }
    }
    return true;
  }

  method Validate(k: Checks, c: Config) returns (ok: bool)
    ensures ok <==> Valid(k, c)
  {
    if c.interval.Some? {
      var d := k.duration(c.interval.value);
      if d.None? || d.value < 10 * SECOND || d.value > 600 * SECOND {
        return false;
      }
    }
    if c.logs.Some? {
      ok := CheckAll(Items(c.logs.value.redact), k.pattern);
      if ok {
        ok := CheckAll(Items(c.logs.value.paths), k.typedPath);
      }
      if ok {
        ok := CheckAll(Items(c.logs.value.exclude), k.absolute);
      }
      return ok;
    }
    return true;
  }

  /** What was valid when it was fetched is valid when it is loaded. */
  lemma JsonKeepsValid(k: Checks, c: Config)
    ensures Valid(k, Json(c)) <==> Valid(k, c)
  {
    if c.logs.Some? {
      var l := c.logs.value;
      assert Items(Compact(l.redact)) == Items(l.redact);
      assert Items(Compact(l.paths)) == Items(l.paths);
      assert Items(Compact(l.exclude)) == Items(l.exclude);
    }
  }

  // ---- applying a configuration over the local one ----

  datatype Mode = Full | Limited | Off

  /** The local configuration, by section. */
  datatype LocalLogs = LocalLogs(logs: string, paths: seq<string>, exclude: seq<string>, redact: seq<string>)

  datatype LocalIntegrations = LocalIntegrations(disabled: bool, nginxStatusURL: string, scrapeURLs: seq<string>)

  datatype LocalEvents = LocalEvents(
    disabled: bool, noAuth: bool, noProcess: bool, noNetwork: bool, noSystem: bool, lifecycle: bool)

  datatype Local = Local(
    interval: int, disabledCollectors: seq<string>,
    logs: LocalLogs, integrations: LocalIntegrations, events: LocalEvents)

  function Flag(was: bool, v: Option<bool>, negate: bool): bool {
    match v
    case None => was
    case Some(b) => if negate then !b else b
  }

  function ApplyLogs(cfg: LocalLogs, o: Option<Logs>, mode: Mode): LocalLogs {
    match o
    case None => cfg
    case Some(l) =>
      LocalLogs(match l.enabled case None => cfg.logs case Some(b) => if b then "auto" else "off",
                if mode.Full? then cfg.paths + Items(l.paths) else cfg.paths,
                cfg.exclude + Items(l.exclude),
                cfg.redact + Items(l.redact))
  }

  function ApplyIntegrations(cfg: LocalIntegrations, o: Option<Integrations>, mode: Mode): LocalIntegrations {
    match o
    case None => cfg
    case Some(i) =>
      LocalIntegrations(
        Flag(cfg.disabled, i.enabled, true),
        if mode.Full? && i.nginxStatusURL.Some? && cfg.nginxStatusURL == "" then i.nginxStatusURL.value
          else cfg.nginxStatusURL,
        if mode.Full? then cfg.scrapeURLs + Items(i.scrapeURLs) else cfg.scrapeURLs)
  }

  function ApplyEvents(cfg: LocalEvents, o: Option<Events>): LocalEvents {
    match o
    case None => cfg
    case Some(e) =>
      LocalEvents(Flag(cfg.disabled, e.enabled, true), Flag(cfg.noAuth, e.auth, true),
                  Flag(cfg.noProcess, e.process, true),
                  Flag(cfg.noNetwork, e.network, true), Flag(cfg.noSystem, e.system, true),
                  Flag(cfg.lifecycle, e.processLifecycle, false))
  }

  function ApplySections(cfg: Local, c: Config, mode: Mode): Local {
    cfg.(logs := ApplyLogs(cfg.logs, c.logs, mode),
         integrations := ApplyIntegrations(cfg.integrations, c.integrations, mode),
         events := ApplyEvents(cfg.events, c.events))
  }

  function ApplyInterval(cfg: Local, c: Config, duration: string -> Option<int>): Local {
    if c.interval.Some? && duration(c.interval.value).Some? then cfg.(interval := duration(c.interval.value).value)
      else cfg
  }

  function ApplyDisabled(cfg: Local, c: Config): Local {
    if c.disabledCollectors.Some? then cfg.(disabledCollectors := c.disabledCollectors.value) else cfg
  }

  /** Apply. `duration` is time.ParseDuration. */
  function Apply(cfg: Local, c: Config, mode: Mode, duration: string -> Option<int>): Local {
    if mode.Off? then cfg else ApplySections(ApplyDisabled(ApplyInterval(cfg, c, duration), c), c, mode)
  }

  /** What the host's owner configured stays: unless trust is full, also everything that chooses what is read. */
  predicate KeepsLocal(was: Local, now: Local, mode: Mode) {
    && (!mode.Full? ==>
          && now.logs.paths == was.logs.paths && now.integrations.scrapeURLs == was.integrations.scrapeURLs
          && now.integrations.nginxStatusURL == was.integrations.nginxStatusURL)
    && was.logs.paths <= now.logs.paths && was.integrations.scrapeURLs <= now.integrations.scrapeURLs
    && was.logs.exclude <= now.logs.exclude && was.logs.redact <= now.logs.redact
    && (was.integrations.nginxStatusURL != "" ==> now.integrations.nginxStatusURL == was.integrations.nginxStatusURL)
  }

  /** The agent's configuration, which Apply updates in place. */
  class Settings {
    var interval: int
    var disabledCollectors: seq<string>
    var logs: LocalLogs
    var integrations: LocalIntegrations
    var events: LocalEvents

    constructor (cfg: Local)
      ensures View() == cfg
    {
      interval, disabledCollectors := cfg.interval, cfg.disabledCollectors;
      logs, integrations, events := cfg.logs, cfg.integrations, cfg.events;
    }

    function View(): Local
      reads this
    {
      Local(interval, disabledCollectors, logs, integrations, events)
    }

    method ApplyRemote(c: Config, mode: Mode, duration: string -> Option<int>)
      modifies this
      ensures View() == Apply(old(View()), c, mode, duration)
      ensures KeepsLocal(old(View()), View(), mode)
    {
      LimitedReadsNothingNew(View(), c, mode, duration);
      if mode == Off {
        return;
      }
      SetGeneral(c, duration);
      SetLogs(c.logs, mode);
      SetIntegrations(c.integrations, mode);
      SetEvents(c.events);
    }

    method SetGeneral(c: Config, duration: string -> Option<int>)
      modifies this`interval, this`disabledCollectors
      ensures View() == ApplyDisabled(ApplyInterval(old(View()), c, duration), c)
    {
      if c.interval.Some? {
        var d := duration(c.interval.value);
        if d.Some? {
          interval := d.value;
        }
      }
      if c.disabledCollectors.Some? {
        disabledCollectors := c.disabledCollectors.value;
      }
    }

    /** Lists are appended to, paths only with full trust. */
    method SetLogs(o: Option<Logs>, mode: Mode)
      modifies this`logs
      ensures logs == ApplyLogs(old(logs), o, mode)
    {
      if o.None? {
        return;
      }
      var l := o.value;
      if l.enabled.Some? {
        logs := logs.(logs := "off");
        if l.enabled.value {
          logs := logs.(logs := "auto");
        }
      }
      if mode == Full {
        logs := logs.(paths := logs.paths + Items(l.paths));
      }
      logs := logs.(exclude := logs.exclude + Items(l.exclude));
      logs := logs.(redact := logs.redact + Items(l.redact));
    }

    method SetIntegrations(o: Option<Integrations>, mode: Mode)
      modifies this`integrations
      ensures integrations == ApplyIntegrations(old(integrations), o, mode)
    {
      if o.None? {
        return;
      }
      var i := o.value;
      if i.enabled.Some? {
        integrations := integrations.(disabled := !i.enabled.value);
      }
      if mode == Full {
        if i.nginxStatusURL.Some? && integrations.nginxStatusURL == "" {
          integrations := integrations.(nginxStatusURL := i.nginxStatusURL.value);
        }
        integrations := integrations.(scrapeURLs := integrations.scrapeURLs + Items(i.scrapeURLs));
      }
    }

    method SetEvents(o: Option<Events>)
      modifies this`events
      ensures events == ApplyEvents(old(events), o)
    {
      if o.None? {
        return;
      }
      var e := o.value;
      var all := Switch(events.disabled, e.enabled, true);
      events := events.(disabled := all);
      var auth := Switch(events.noAuth, e.auth, true);
      events := events.(noAuth := auth);
      var process := Switch(events.noProcess, e.process, true);
      events := events.(noProcess := process);
      var network := Switch(events.noNetwork, e.network, true);
      events := events.(noNetwork := network);
      var system := Switch(events.noSystem, e.system, true);
      events := events.(noSystem := system);
      var lifecycle := Switch(events.lifecycle, e.processLifecycle, false);
      events := events.(lifecycle := lifecycle);
    }
  }

  /** The closure of Apply that sets one event switch. */
  method Switch(was: bool, v: Option<bool>, disable: bool) returns (dst: bool)
    ensures dst == Flag(was, v, disable)
  {
    dst := was;
    if v.Some? {
      dst := v.value;
      if disable {
        dst := !v.value;
      }
    }
  }

  // ---- what each setting does ----

  /** A switch that is given decides, the other way round for what is switched off; one that is not leaves things. */
  predicate Switched(was: bool, now: bool, v: Option<bool>, negated: bool) {
    (v.None? ==> now == was) && (v.Some? ==> now == (v.value != negated))
  }

  predicate GeneralSet(was: Local, now: Local, c: Config, duration: string -> Option<int>) {
    var d := if c.interval.Some? then duration(c.interval.value) else None;
    && (d.Some? ==> now.interval == d.value) && (d.None? ==> now.interval == was.interval)
    && (c.disabledCollectors.Some? ==> now.disabledCollectors == c.disabledCollectors.value)
    && (c.disabledCollectors.None? ==> now.disabledCollectors == was.disabledCollectors)
  }

  predicate LogsSet(was: LocalLogs, now: LocalLogs, l: Logs, mode: Mode) {
    && (l.enabled == Some(true) ==> now.logs == "auto") && (l.enabled == Some(false) ==> now.logs == "off")
    && (l.enabled == None ==> now.logs == was.logs)
    && now.paths == was.paths + (if mode.Full? then Items(l.paths) else [])
    && now.exclude == was.exclude + Items(l.exclude) && now.redact == was.redact + Items(l.redact)
  }

  predicate IntegrationsSet(was: LocalIntegrations, now: LocalIntegrations, i: Integrations, mode: Mode) {
    var takesUrl := mode.Full? && was.nginxStatusURL == "" && i.nginxStatusURL.Some?;
    && Switched(was.disabled, now.disabled, i.enabled, true)
    && now.scrapeURLs == was.scrapeURLs + (if mode.Full? then Items(i.scrapeURLs) else [])
    && now.nginxStatusURL == if takesUrl then i.nginxStatusURL.value else was.nginxStatusURL
  }

  predicate EventsSet(was: LocalEvents, now: LocalEvents, e: Events) {
    && Switched(was.disabled, now.disabled, e.enabled, true)
    && Switched(was.noAuth, now.noAuth, e.auth, true)
    && Switched(was.noProcess, now.noProcess, e.process, true)
    && Switched(was.noNetwork, now.noNetwork, e.network, true)
    && Switched(was.noSystem, now.noSystem, e.system, true)
    && Switched(was.lifecycle, now.lifecycle, e.processLifecycle, false)
  }

  lemma LogsApplied(cfg: LocalLogs, o: Option<Logs>, mode: Mode)
    ensures if o.None? then ApplyLogs(cfg, o, mode) == cfg else LogsSet(cfg, ApplyLogs(cfg, o, mode), o.value, mode)
  {
    assert cfg.paths + [] == cfg.paths;
  }

  lemma IntegrationsApplied(cfg: LocalIntegrations, o: Option<Integrations>, mode: Mode)
    ensures var now := ApplyIntegrations(cfg, o, mode);
            if o.None? then now == cfg else IntegrationsSet(cfg, now, o.value, mode)
  {
    assert cfg.scrapeURLs + [] == cfg.scrapeURLs;
  }

  lemma EventsApplied(cfg: LocalEvents, o: Option<Events>)
    ensures if o.None? then ApplyEvents(cfg, o) == cfg else EventsSet(cfg, ApplyEvents(cfg, o), o.value)
  {
  }

  /** Off changes nothing; otherwise each setting does what it says, and a section that is left out nothing. */
  lemma AppliesWhatIsSet(cfg: Local, c: Config, mode: Mode, duration: string -> Option<int>)
    ensures var r := Apply(cfg, c, mode, duration);
            if mode.Off? then r == cfg
            else
              && GeneralSet(cfg, r, c, duration)
              && (if c.logs.None? then r.logs == cfg.logs else LogsSet(cfg.logs, r.logs, c.logs.value, mode))
              && (if c.integrations.None? then r.integrations == cfg.integrations
                  else IntegrationsSet(cfg.integrations, r.integrations, c.integrations.value, mode))
              && (if c.events.None? then r.events == cfg.events else EventsSet(cfg.events, r.events, c.events.value))
  {
    LogsApplied(cfg.logs, c.logs, mode);
    IntegrationsApplied(cfg.integrations, c.integrations, mode);
    EventsApplied(cfg.events, c.events);
  }

  lemma CompactItems(l: Option<seq<string>>)
    ensures Items(Compact(l)) == Items(l)
  {
  }

  lemma SectionsSurvive(cfg: Local, c: Config, mode: Mode)
    ensures ApplySections(cfg, Json(c), mode) == ApplySections(cfg, c, mode)
  {
    if c.logs.Some? {
      var l := c.logs.value;
      CompactItems(l.redact);
      CompactItems(l.paths);
      CompactItems(l.exclude);
    }
    if c.integrations.Some? {
      CompactItems(c.integrations.value.scrapeURLs);
    }
    assert ApplyLogs(cfg.logs, Json(c).logs, mode) == ApplyLogs(cfg.logs, c.logs, mode);
    assert ApplyIntegrations(cfg.integrations, Json(c).integrations, mode) ==
      ApplyIntegrations(cfg.integrations, c.integrations, mode);
    assert Json(c).events == c.events;
  }

  lemma SectionsLeaveDisabled(cfg: Local, c: Config, mode: Mode)
    ensures ApplySections(cfg, c, mode).disabledCollectors == cfg.disabledCollectors
  {
  }

  /**
   "Two configurations set exactly the same things" when they are written the
   same way, with one exception: an empty list of disabled collectors, which
   would clear the local list, is lost in writing. A configuration survives the
   save if and only if it is not that, or there is nothing to clear.
   */
  lemma SavingKeepsEffectIff(cfg: Local, c: Config, mode: Mode, duration: string -> Option<int>)
    ensures Apply(cfg, Json(c), mode, duration) == Apply(cfg, c, mode, duration)
            <==> mode.Off? || c.disabledCollectors != Some([]) || cfg.disabledCollectors == []
  {
    var base := ApplyInterval(cfg, c, duration);
    assert ApplyInterval(cfg, Json(c), duration) == base;
    var kept, wanted := ApplyDisabled(base, Json(c)), ApplyDisabled(base, c);
    SectionsSurvive(kept, c, mode);
    SectionsLeaveDisabled(kept, c, mode);
    SectionsLeaveDisabled(wanted, c, mode);
    assert kept == wanted <==> c.disabledCollectors != Some([]) || cfg.disabledCollectors == [];
  }

  /**
   Configurations that sameEffect takes for the same do the same if and only
   if their lists of disabled collectors are equal (one may be left out and the
   other empty), or there is nothing to clear.
   */
  lemma SameEffectIff(cfg: Local, a: Config, b: Config, mode: Mode, duration: string -> Option<int>)
    requires SameEffect(a, b)
    ensures Apply(cfg, a, mode, duration) == Apply(cfg, b, mode, duration)
            <==> mode.Off? || a.disabledCollectors == b.disabledCollectors || cfg.disabledCollectors == []
  {
    if !mode.Off? {
      var base := ApplyInterval(cfg, a, duration);
      assert Json(a).interval == Json(b).interval && ApplyInterval(cfg, b, duration) == base;
      var withA, withB := ApplyDisabled(base, a), ApplyDisabled(base, b);
      SectionsSurvive(withA, a, mode);
      SectionsSurvive(withB, b, mode);
      SectionsLeaveDisabled(withA, a, mode);
      SectionsLeaveDisabled(withB, b, mode);
      assert ApplySections(withA, Json(a), mode) ==
        ApplySections(withA, b, mode) by { SectionsSurvive(withA, b, mode); }
      assert Compact(a.disabledCollectors) == Compact(b.disabledCollectors);
    }
  }

  /** An empty list clears the local one; left out, it does not. The two compare equal and are saved alike. */
  lemma EmptyListIsLost(cfg: Local, duration: string -> Option<int>)
    requires cfg.disabledCollectors == ["disk"]
    ensures var clears := NOTHING.(disabledCollectors := Some([]));
            && SameEffect(clears, NOTHING) && Json(clears) == NOTHING
            && Apply(cfg, clears, Full, duration).disabledCollectors == []
            && Apply(cfg, NOTHING, Full, duration).disabledCollectors == ["disk"]
  {
  }

  /** Limited trust: nothing that chooses what is read; local lists are extended, never replaced. */
  lemma LimitedReadsNothingNew(cfg: Local, c: Config, mode: Mode, duration: string -> Option<int>)
    ensures KeepsLocal(cfg, Apply(cfg, c, mode, duration), mode)
  {
    var l, i := ApplyLogs(cfg.logs, c.logs, mode), ApplyIntegrations(cfg.integrations, c.integrations, mode);
    assert !mode.Off? ==> Apply(cfg, c, mode, duration).logs == l && Apply(cfg, c, mode, duration).integrations == i;
  }

  // ---- fetching, saving, restarting ----

  /** Restarts are spaced by this much uptime, in milliseconds. */
  const MIN_UPTIME: nat := 120000

  /** A poll's outcome: nothing usable (unreachable, paused, 304, 404, unreadable) or a configuration. */
  datatype Answer = Nothing | Sent(s: Stored)

  /** A running agent; `restartAt` is set once it has decided to restart. */
  datatype Agent = Agent(started: int, current: string, applied: Config, restartAt: Option<int>)

  datatype Restart = Restart(started: int, at: int)

  datatype System = System(now: int, saved: Option<Stored>, agent: Option<Agent>, restarts: seq<Restart>)

  datatype Step = Tick(ms: nat) | Start | Poll(answer: Answer, saveOk: bool) | DoRestart | Stop

  /** check: a new valid configuration, which is then on disk. */
  predicate Adopts(k: Checks, current: string, answer: Answer, saveOk: bool) {
    answer.Sent? && answer.s.version != "" && answer.s.version != current && Valid(k, answer.s.config) && saveOk
  }

  function StartedAgent(k: Checks, now: int, saved: Option<Stored>): Agent {
    if saved.Some? && saved.value.version != "" && Valid(k, saved.value.config) then
      Agent(now, saved.value.version, saved.value.config, None)
    else Agent(now, "", NOTHING, None)
  }

  /** One turn of Fetcher.Run. */
  function Turn(k: Checks, now: int, a: Agent, answer: Answer, saveOk: bool): Agent {
    if !Adopts(k, a.current, answer, saveOk) then a
    else if SameEffect(answer.s.config, a.applied) then a.(current := answer.s.version)
    else
      var wait := MIN_UPTIME - (now - a.started);
      a.(restartAt := Some(if wait > 0 then now + wait else now))
  }

  predicate Enabled(s: System, step: Step) {
    match step
    case Tick(_) => true
    case Start => s.agent.None?
    case Poll(_, _) => s.agent.Some? && s.agent.value.restartAt.None?
    case DoRestart => s.agent.Some? && s.agent.value.restartAt.Some? && s.now >= s.agent.value.restartAt.value
    case Stop => s.agent.Some?
  }

  function Next(k: Checks, s: System, step: Step): System
    requires Enabled(s, step)
  {
    match step
    case Tick(ms) => s.(now := s.now + ms)
    case Start => s.(agent := Some(StartedAgent(k, s.now, s.saved)))
    case Poll(answer, saveOk) =>
      var a := s.agent.value;
      s.(saved := if Adopts(k, a.current, answer, saveOk) then Some(Stored(answer.s.version, Json(answer.s.config)))
        else s.saved,
         agent := Some(Turn(k, s.now, a, answer, saveOk)))
    case DoRestart => s.(restarts := s.restarts + [Restart(s.agent.value.started, s.now)], agent := None)
    case Stop => s.(agent := None)
  }

  /** The agent runs what is on disk, unless it is about to restart for it. */
  ghost predicate InSync(s: System) {
    s.agent.Some? && s.agent.value.restartAt.None? ==>
      if s.saved.None? then s.agent.value.current == "" && s.agent.value.applied == NOTHING
      else s.agent.value.current == s.saved.value.version && s.agent.value.applied == s.saved.value.config
  }

  ghost predicate Inv(k: Checks, s: System) {
    && (s.saved.Some? ==>
          && s.saved.value.version != "" && Valid(k, s.saved.value.config)
          && Json(s.saved.value.config) == s.saved.value.config)
    && (s.agent.Some? ==> Json(s.agent.value.applied) == s.agent.value.applied && s.agent.value.started <= s.now)
    && (s.agent.Some? && s.agent.value.restartAt.Some? ==>
          s.agent.value.restartAt.value >= s.agent.value.started + MIN_UPTIME)
    && InSync(s)
    && (forall i :: 0 <= i < |s.restarts| ==> s.restarts[i].at >= s.restarts[i].started + MIN_UPTIME)
  }

  lemma StepKeeps(k: Checks, s: System, step: Step)
    requires Inv(k, s) && Enabled(s, step)
    ensures Inv(k, Next(k, s, step))
  {
    if step.Poll? && step.answer.Sent? {
      JsonStable(step.answer.s.config);
      JsonKeepsValid(k, step.answer.s.config);
    }
  }

  ghost predicate IsRun(k: Checks, states: seq<System>, steps: seq<Step>) {
    && |states| == |steps| + 1
    && forall i :: 0 <= i < |steps| ==> Enabled(states[i], steps[i]) && states[i + 1] == Next(k, states[i], steps[i])
  }

  /**
   From a fresh state directory, at every point of every run: what is saved is
   valid, what runs is what is saved unless a restart is due, and every restart
   for a configuration came at least MIN_UPTIME after its start.
   */
  lemma {:induction false} RunKeeps(k: Checks, states: seq<System>, steps: seq<Step>, i: nat)
    requires IsRun(k, states, steps) && i <= |steps|
    requires states[0].saved.None? && states[0].agent.None? && states[0].restarts == []
    ensures Inv(k, states[i])
  {
    if i > 0 {
      RunKeeps(k, states, steps, i - 1);
      StepKeeps(k, states[i - 1], steps[i - 1]);
    }
  }

  // ---- convergence on an answer that stays ----

  /** From here on the server sends this, or nothing. */
  predicate Sends(step: Step, s: Stored) {
    step.Poll? && step.answer.Sent? ==> step.answer.s == s
  }

  ghost predicate SavedIs(sys: System, s: Stored) {
    sys.saved == Some(Stored(s.version, Json(s.config)))
  }

  /** No restart is decided, and a saved configuration of that version is that configuration. */
  ghost predicate Undecided(sys: System, s: Stored) {
    && (sys.agent.Some? ==> sys.agent.value.restartAt.None?)
    && (sys.saved.Some? && sys.saved.value.version == s.version ==> SavedIs(sys, s))
  }

  ghost predicate Deciding(sys: System, s: Stored) {
    SavedIs(sys, s) && sys.agent.Some? && sys.agent.value.restartAt.Some?
  }

  ghost predicate Converged(sys: System, s: Stored) {
    SavedIs(sys, s) && (sys.agent.Some? ==> sys.agent.value.restartAt.None?)
  }

  lemma ConvergedStays(k: Checks, sys: System, step: Step, s: Stored)
    requires Inv(k, sys) && Enabled(sys, step) && Sends(step, s) && Converged(sys, s)
    ensures Converged(Next(k, sys, step), s) && Next(k, sys, step).restarts == sys.restarts
  {
  }

  lemma UndecidedGoesOn(k: Checks, sys: System, step: Step, s: Stored)
    requires Inv(k, sys) && Enabled(sys, step) && Sends(step, s) && Undecided(sys, s)
    ensures var t := Next(k, sys, step);
            t.restarts == sys.restarts && (Undecided(t, s) || Deciding(t, s))
  {
  }

  lemma DecidingEnds(k: Checks, sys: System, step: Step, s: Stored)
    requires Inv(k, sys) && Enabled(sys, step) && Deciding(sys, s)
    ensures var t := Next(k, sys, step);
            || (Deciding(t, s) && t.restarts == sys.restarts)
            || (Converged(t, s) && |t.restarts| <= |sys.restarts| + 1)
  {
  }

  /**
   Once the answer stays fixed and no restart is already decided, at most one
   restart follows, and after it the configuration saved is that answer; a
   crash between save and restart only saves the restart.
   */
  lemma {:induction false} AtMostOneRestart(k: Checks, states: seq<System>, steps: seq<Step>, s: Stored, i: nat)
    requires IsRun(k, states, steps) && i <= |steps| && Inv(k, states[0]) && Undecided(states[0], s)
    requires forall j :: 0 <= j < |steps| ==> Sends(steps[j], s)
    ensures Inv(k, states[i])
    ensures var n := |states[i].restarts| - |states[0].restarts|;
            && 0 <= n <= 1
            && (n == 1 ==> Converged(states[i], s))
            && (n == 0 ==> Undecided(states[i], s) || Deciding(states[i], s) || Converged(states[i], s))
  {
    if i > 0 {
      AtMostOneRestart(k, states, steps, s, i - 1);
      var sys, step := states[i - 1], steps[i - 1];
      StepKeeps(k, sys, step);
      if Converged(sys, s) {
        ConvergedStays(k, sys, step, s);
      } else if Undecided(sys, s) {
        UndecidedGoesOn(k, sys, step, s);
      } else {
        DecidingEnds(k, sys, step, s);
      }
    }
  }

  /** What a converged agent runs: the answer, and no poll makes it restart. */
  lemma ConvergedRunsIt(k: Checks, sys: System, s: Stored)
    requires Inv(k, sys) && Converged(sys, s) && sys.agent.Some?
    ensures sys.agent.value.current == s.version && sys.agent.value.applied == Json(s.config)
  {
  }

  /** One successful poll of a valid new answer is enough to be there or on the way. */
  lemma OnePollDecides(k: Checks, sys: System, s: Stored)
    requires Inv(k, sys) && Undecided(sys, s) && sys.agent.Some? && s.version != "" && Valid(k, s.config)
    ensures var t := Next(k, sys, Poll(Sent(s), true));
            Deciding(t, s) || Converged(t, s)
  {
  }

  /** The same configuration runs again, or a new start runs the answer. */
  ghost predicate RunsIt(k: Checks, sys: System, s: Stored) {
    && sys.agent.None? && Enabled(sys, Start)
    && Next(k, sys, Start) == sys.(agent := Some(Agent(sys.now, s.version, Json(s.config), None)))
    && Converged(Next(k, sys, Start), s)
  }

  /**
   What a valid answer leads to. One that changes nothing is adopted at once.
   Any other is on disk, and the agent may restart exactly from two minutes
   after its start on; after that restart, or a crash before it, it runs.
   */
  lemma AnswerIsRun(k: Checks, sys: System, s: Stored, ms: nat)
    requires Inv(k, sys) && Undecided(sys, s) && sys.agent.Some? && s.version != "" && Valid(k, s.config)
    ensures var a, t := sys.agent.value, Next(k, sys, Poll(Sent(s), true));
            if a.current == s.version || SameEffect(s.config, a.applied) then
              Converged(t, s) && t.agent == Some(a.(current := s.version)) && t.restarts == sys.restarts
            else
              && Enabled(t, Tick(ms))
              && var u := Next(k, t, Tick(ms));
              && u.now == sys.now + ms && Enabled(u, Stop) && !Enabled(u, Start)
              && RunsIt(k, Next(k, u, Stop), s) && Next(k, u, Stop).restarts == sys.restarts
              && (Enabled(u, DoRestart) <==> u.now >= a.started + 120000)
              && (Enabled(u, DoRestart) ==>
                    && RunsIt(k, Next(k, u, DoRestart), s)
                    && Next(k, u, DoRestart).restarts == sys.restarts + [Restart(a.started, u.now)])
  {
    JsonKeepsValid(k, s.config);
  }

  // ---- the fetcher as an object ----

  class Fetcher {
    const k: Checks
    const started: int
    var current: string
    const applied: Config
    /** remote_config.json */
    var saved: Option<Stored>

    /** With remote configuration off, what is stored is not looked at. */
    constructor (k: Checks, now: int, found: Option<Stored>, mode: Mode)
      ensures this.k == k && saved == found
      ensures View(None) == StartedAgent(k, now, if mode.Off? then None else found)
    {
      this.k := k;
      started := now;
      saved := found;
      var a := StartedAgent(k, now, if mode == Off then None else found);
      current := a.current;
      applied := a.applied;
    }

    function View(restartAt: Option<int>): Agent
      reads this
    {
      Agent(started, current, applied, restartAt)
    }

    method Check(answer: Answer, saveOk: bool) returns (changed: Option<Stored>)
      modifies this`saved
      ensures changed == if Adopts(k, current, answer, saveOk) then Some(answer.s) else None
      ensures saved == if changed.Some? then Some(Stored(changed.value.version, Json(changed.value.config)))
                else old(saved)
    {
      if answer.Nothing? || answer.s.version == "" || answer.s.version == current {
        return None;
      }
      var ok := Validate(k, answer.s.config);
      if !ok || !saveOk {
        return None;
      }
      saved := Some(Stored(answer.s.version, Json(answer.s.config)));
      return Some(answer.s);
    }

    /** One turn of the loop of Run: the time of the restart, when one is decided. */
    method Poll(now: int, answer: Answer, saveOk: bool) returns (restartAt: Option<int>)
      modifies this`saved, this`current
      ensures View(restartAt) == Turn(k, now, old(View(None)), answer, saveOk)
      ensures saved == if Adopts(k, old(current), answer, saveOk)
                then Some(Stored(answer.s.version, Json(answer.s.config))) else old(saved)
    {
      var changed := Check(answer, saveOk);
      if changed.None? {
        return None;
      }
      if SameEffect(changed.value.config, applied) {
        current := changed.value.version;
        return None;
      }
      var wait := MIN_UPTIME - (now - started);
      return Some(if wait > 0 then now + wait else now);
    }
  }
}
