/** The rollback itself and the whole command line run: deploy, health gate, at most one rollback. */
module RollbackRun {
  import opened Basics
  import opened JsonValues
  import opened Deploy
  import opened RollbackTriggers
  import opened RollbackRecovery
  import opened Rollback
  import opened RollbackEvidence

  datatype Summary = Summary(
    target: RoomTarget, failedCommit: string, rollbackCommit: string, triggerKinds: seq<string>,
    recoveryTargets: seq<string>, previousStem: string, previousGate: string)

  /** What a run does outside the remote store, in order. A deploy remembers how many readings the monitor
      had given by then. */
  datatype Event =
    | Deployed(cfg: DeployConfig, seen: nat)
    | GateRead(gate: Json)
    | CheckedOut(commit: string)
    | Rebuilt
    | IssueOpened
    | SummaryWritten(summary: Summary)

  /** The machine the script runs on, with its evidence directory. Every command may fail; a rebuild leaves
      whatever it leaves. */
  class Host {
    const monitor: Monitor
    var artifact: Artifact
    var disk: EvidenceDir
    ghost var log: seq<Event>

    constructor (monitor: Monitor, artifact: Artifact, disk: EvidenceDir)
      ensures this.monitor == monitor && this.artifact == artifact && this.disk == disk && log == []
    {
      this.monitor, this.artifact, this.disk, log := monitor, artifact, disk, [];
    }

    /** Leaves some content at a place, which may be outside the directory. */
    method Write(place: Place, content: Content)
      modifies `disk
      ensures Touched(old(disk), disk, place)
      ensures forall stem :: At(old(disk), stem) == place ==> disk.file(stem) == content
    {
      var before, stems, stamp: string := disk, disk.stems, *;
      if At(disk, place.stem) == place && place.stem !in stems {
        var k: int := *;
        k := if 0 <= k <= |stems| then k else |stems|;
        ListedAnywhere(disk, stems, k, place);
        stems := stems[..k] + [place.stem] + stems[k..];
      }
      disk := EvidenceDir(before.folder, stems,
                          (stem: string) => if At(before, stem) == place then content else before.file(stem),
                          (stem: string) => if At(before, stem) == place then stamp else before.modified(stem));
    }

    /** Writes the evidence of a deploy, if the run was told where. */
    method WriteEvidence(path: Option<Place>, payload: Record)
      modifies `disk
      ensures if path.Some? then Overwritten(old(disk), disk, path.value, payload) else disk == old(disk)
      ensures disk.folder == old(disk.folder)
    {
      if path.Some? {
        Write(path.value, Parsed(payload));
      }
    }

    ghost method Note(e: Event)
      modifies `log
      ensures log == old(log) + [e]
    {
      log := log + [e];
    }

    method CheckoutRollbackSources(commit: string) returns (r: Result<bool, string>)
      modifies `log
      ensures log == old(log) + if r.Ok? then [CheckedOut(commit)] else []
    {
      r := *;
      if r.Ok? {
        Note(CheckedOut(commit));
      }
    }

    method RebuildRollbackBundle() returns (r: Result<bool, string>)
      modifies `log, `artifact
      ensures log == old(log) + if r.Ok? then [Rebuilt] else []
    {
      r, artifact := *, *;
      if r.Ok? {
        Note(Rebuilt);
      }
    }

    /** The gate's output is kept on disk as it is. A result is the object it holds, or stands for output that
        cannot be read. */
    method RunPostdeployHealthGate(place: Place) returns (r: Result<Record, string>)
      modifies `log, `disk
      ensures log == old(log) + if r.Ok? then [GateRead(Obj(r.value))] else []
      ensures Touched(old(disk), disk, place)
      ensures r.Ok? ==> Overwritten(old(disk), disk, place, r.value) || StandsForUnreadable(r.value)
    {
      r := *;
      var output: Content := *;
      Write(place, if r.Ok? && !StandsForUnreadable(r.value) then Parsed(r.value) else output);
      if r.Ok? {
        Note(GateRead(Obj(r.value)));
      }
    }

    method CreateIssue() returns (r: Result<bool, string>)
      modifies `log
      ensures log == old(log) + if r.Ok? then [IssueOpened] else []
    {
      r := *;
      if r.Ok? {
        Note(IssueOpened);
      }
    }
  }

  /** What output that is empty or no JSON is taken for: an empty object, or one with an error text only. */
  predicate StandsForUnreadable(payload: Record) {
    payload.Keys <= {"error"}
  }

  lemma ListedAnywhere(dir: EvidenceDir, stems: seq<string>, k: nat, place: Place)
    requires k <= |stems| && At(dir, place.stem) == place
    ensures Filter(stems[..k] + [place.stem] + stems[k..], Elsewhere(dir, place))
            == Filter(stems, Elsewhere(dir, place))
  {
    var p := Elsewhere(dir, place);
    hide Filter;
    FilterConcat(stems[..k], [place.stem], p);
    FilterConcat(stems[..k] + [place.stem], stems[k..], p);
    FilterConcat(stems[..k], stems[k..], p);
    FilterOne(place.stem, p);
    assert stems[..k] + stems[k..] == stems;
  }

  function Home(cfg: DeployConfig): RoomTarget {
    RoomTarget(cfg.target.shard, cfg.target.room)
  }

  const ROLLBACK_EVIDENCE := "auto-rollback-deploy"

  function RollbackConfig(cfg: DeployConfig): DeployConfig {
    cfg.(evidencePath := Some(Place(cfg.evidenceDir, ROLLBACK_EVIDENCE, JSON_SUFFIX)), autoRollback := false)
  }

  // ---------- one deploy on this machine ----------

  type Branches = map<string, Option<string>>

  /** The branch, and the active world if that was asked for, hold the artifact built here. */
  predicate Live(cfg: DeployConfig, branches: Branches, active: Option<string>, artifact: Artifact,
                 sha: string -> string) {
    && artifact.Module? && cfg.target.branch in branches && branches[cfg.target.branch].Some?
    && sha(branches[cfg.target.branch].value) == sha(artifact.code)
    && (cfg.activateWorld ==> active == Some(cfg.target.branch))
  }

  /** What any run may have done to the store: its branch, and the active pointer towards its branch. */
  ghost predicate Confined(cfg: DeployConfig, before: Branches, activeBefore: Option<string>, after: Branches,
                           active: Option<string>) {
    && (active == activeBefore || active == Some(cfg.target.branch))
    && forall b :: b != cfg.target.branch ==> (b in after <==> b in before) && (b in after ==> after[b] == before[b])
  }

  method DeployHere(cfg: DeployConfig, token: string, server: Server, host: Host, sha: string -> string)
    returns (r: Result<Evidence, string>)
    requires cfg.target.branch != ACTIVE_WORLD
    modifies server, host`log
    ensures host.log == old(host.log) + [Deployed(cfg, |host.monitor.readings|)]
    ensures Confined(cfg, old(server.branches), old(server.active), server.branches, server.active)
    ensures r.Ok? && cfg.deploy ==> Live(cfg, server.branches, server.active, host.artifact, sha)
    ensures r.Ok? ==> r.value.target == cfg.target
  {
    host.Note(Deployed(cfg, |host.monitor.readings|));
    var commit: string := *;
    var leaks: bool := *;
    var result, _, _, _, _ := RunDeploy(cfg, token, host.artifact, commit, server, sha, leaks);
    r := result;
  }

  // ---------- the rollback ----------

  /** Putting the old sources back, and deploying what they build to. */
  function RestoreEvents(cfg: DeployConfig, commit: string, seen: nat): seq<Event> {
    [CheckedOut(commit), Rebuilt, Deployed(RollbackConfig(cfg), seen)]
  }

  /** A rollback that goes through. */
  function FullRollback(cfg: DeployConfig, commit: string, seen: nat, s: Summary): seq<Event> {
    RestoreEvents(cfg, commit, seen) + [IssueOpened, SummaryWritten(s)]
  }

  /** The commit of the latest healthy evidence of the failed deploy's target. */
  ghost predicate FromLatest(cfg: DeployConfig, failed: Evidence, dir: EvidenceDir, commit: string) {
    exists p :: IsLatest(dir, failed.target, failed.commit, cfg.evidencePath, p) && p.commit == commit
  }

  /** Restores and rebuilds the sources of the previous healthy deploy. */
  method RestoreSources(cfg: DeployConfig, failed: Evidence, dir: EvidenceDir, host: Host)
    returns (r: Result<Previous, string>, ghost commit: string, ghost events: seq<Event>)
    modifies host`log, host`artifact
    ensures host.log == old(host.log) + events
    ensures r.Ok? ==> IsLatest(dir, failed.target, failed.commit, cfg.evidencePath, r.value) && commit == r.value.commit
    ensures if r.Ok? then events == [CheckedOut(commit), Rebuilt] else events == [] || events == [CheckedOut(commit)]
    ensures events != [] ==> FromLatest(cfg, failed, dir, commit)
  {
    hide IsLatest;
    commit, events := "", [];
    r := FindPreviousHealthyDeploy(dir, failed.target, failed.commit, cfg.evidencePath);
    if r.Err? {
      return;
    }
    commit := r.value.commit;
    var checkout := host.CheckoutRollbackSources(r.value.commit);
    if checkout.Err? {
      return Err(checkout.error), commit, events;
    }
    events := [CheckedOut(commit)];
    var rebuild := host.RebuildRollbackBundle();
    if rebuild.Err? {
      return Err(rebuild.error), commit, events;
    }
    events := [CheckedOut(commit), Rebuilt];
  }

  /** The first half: the sources of the previous healthy deploy are restored, rebuilt and deployed. */
  method Restore(cfg: DeployConfig, failed: Evidence, dir: EvidenceDir, token: string, server: Server, host: Host,
                 sha: string -> string)
    returns (r: Result<Previous, string>, ghost commit: string, ghost events: seq<Event>)
    requires cfg.target.branch != ACTIVE_WORLD
    modifies server, host`log, host`artifact
    ensures host.log == old(host.log) + events
    ensures r.Ok? ==> events == RestoreEvents(cfg, commit, |host.monitor.readings|)
    ensures events <= RestoreEvents(cfg, commit, |host.monitor.readings|)
    ensures events != [] ==> FromLatest(cfg, failed, dir, commit)
    ensures r.Ok? ==> IsLatest(dir, failed.target, failed.commit, cfg.evidencePath, r.value) && commit == r.value.commit
    ensures Confined(cfg, old(server.branches), old(server.active), server.branches, server.active)
    ensures r.Ok? && cfg.deploy ==> Live(cfg, server.branches, server.active, host.artifact, sha)
  {
    hide FromLatest, IsLatest;
    r, commit, events := RestoreSources(cfg, failed, dir, host);
    if r.Err? {
      return;
    }
    var deployed := DeployHere(RollbackConfig(cfg), token, server, host, sha);
    events := events + [Deployed(RollbackConfig(cfg), |host.monitor.readings|)];
    if deployed.Err? {
      r := Err(deployed.error);
    }
  }

  /** Once everything recovered, the incident is filed and the summary written. */
  method Conclude(host: Host, s: Summary) returns (r: Result<Summary, string>, ghost events: seq<Event>)
    modifies host`log
    ensures host.log == old(host.log) + events
    ensures if r.Ok? then r.value == s && events == [IssueOpened, SummaryWritten(s)] else events == []
  {
    var issue := host.CreateIssue();
    if issue.Err? {
      return Err(issue.error), [];
    }
    host.Note(SummaryWritten(s));
    r, events := Ok(s), [IssueOpened, SummaryWritten(s)];
  }

  /** Waits until every room the gate complained about has recovered. */
  method AwaitRecovery(cfg: DeployConfig, gate: Json, m: Monitor, num: string -> Option<real>)
    returns (r: Result<seq<RoomTarget>, string>)
    requires cfg.recoveryPoll > 0
    modifies m
    ensures r.Ok? ==> AreRecoveryTargets(gate, Home(cfg), r.value)
    ensures r.Ok? ==> |m.readings| > |old(m.readings)| && AllRecovered(m.readings[|m.readings| - 1], r.value, num)
  {
    var targets := AutoRollbackRecoveryTargets(Home(cfg), gate);
    var recovery := WaitForRecoveryTargets(m, targets, num, cfg.recoveryTimeout, cfg.recoveryPoll);
    r := if recovery == Ok(true) then Ok(targets)
         else Err(if recovery.Err? then recovery.error else "recovery verification failed");
  }

  function Summarize(cfg: DeployConfig, failed: Evidence, previous: Previous, kinds: seq<string>,
                     targets: seq<RoomTarget>): Summary {
    Summary(Home(cfg), if failed.commit == "" then "unknown" else failed.commit, previous.commit, kinds,
            Map(targets, Format), previous.stem, PairedHealthGate(previous.stem))
  }

  /** A summary is written only about a commit restored from the latest healthy evidence of the same target,
      and only after every room the gate complained about was seen recovered, later than the first `seen` readings. */
  ghost predicate Earned(cfg: DeployConfig, failed: Evidence, gate: Json, dir: EvidenceDir, readings: seq<Record>,
                         seen: nat, num: string -> Option<real>, s: Summary) {
    exists previous, targets ::
      && s == Summarize(cfg, failed, previous, s.triggerKinds, targets)
      && IsLatest(dir, failed.target, failed.commit, cfg.evidencePath, previous)
      && AreRecoveryTargets(gate, Home(cfg), targets) && AreKinds(Reasons(gate), s.triggerKinds)
      && |readings| > seen && AllRecovered(readings[|readings| - 1], targets, num)
  }

  /** The second half: recovery is awaited, the incident filed and the summary written. */
  method Confirm(cfg: DeployConfig, failed: Evidence, gate: Json, dir: EvidenceDir, previous: Previous, host: Host,
                 num: string -> Option<real>)
    returns (r: Result<Summary, string>, ghost events: seq<Event>)
    requires cfg.recoveryPoll > 0 && IsLatest(dir, failed.target, failed.commit, cfg.evidencePath, previous)
    modifies host`log, host.monitor
    ensures host.log == old(host.log) + events
    ensures if r.Ok? then events == [IssueOpened, SummaryWritten(r.value)] else events == []
    ensures r.Ok? ==> Earned(cfg, failed, gate, dir, host.monitor.readings, |old(host.monitor.readings)|, num, r.value)
    ensures r.Ok? ==> r.value.rollbackCommit == previous.commit
  {
    var targets := AwaitRecovery(cfg, gate, host.monitor, num);
    if targets.Err? {
      return Err(targets.error), [];
    }
    var kinds := TriggerReasonKinds(gate);
    var s := Summarize(cfg, failed, previous, kinds, targets.value);
    assert Earned(cfg, failed, gate, dir, host.monitor.readings, |old(host.monitor.readings)|, num, s);
    r, events := Conclude(host, s);
  }

  /** The steps of a rollback, before errors are escalated. The events are the rollback's own sequence, cut
      off where it failed; the summary comes last. */
  method AttemptRollback(cfg: DeployConfig, failed: Evidence, gate: Json, dir: EvidenceDir, token: string,
                         server: Server, host: Host, sha: string -> string, num: string -> Option<real>)
    returns (r: Result<Summary, string>, ghost commit: string, ghost events: seq<Event>)
    requires cfg.target.branch != ACTIVE_WORLD && cfg.recoveryPoll > 0
    modifies server, host`log, host`artifact, host.monitor
    ensures host.log == old(host.log) + events
    ensures r.Ok? ==> events == FullRollback(cfg, commit, |old(host.monitor.readings)|, r.value)
    ensures r.Err? ==> events <= RestoreEvents(cfg, commit, |old(host.monitor.readings)|)
    ensures events != [] ==> FromLatest(cfg, failed, dir, commit)
    ensures Confined(cfg, old(server.branches), old(server.active), server.branches, server.active)
    ensures r.Ok? ==> Earned(cfg, failed, gate, dir, host.monitor.readings, |old(host.monitor.readings)|, num, r.value)
    ensures r.Ok? ==> r.value.rollbackCommit == commit
    ensures r.Ok? && cfg.deploy ==> Live(cfg, server.branches, server.active, host.artifact, sha)
  {
    hide Earned, FromLatest, IsLatest, Live, Confined;
    var restored;
    restored, commit, events := Restore(cfg, failed, dir, token, server, host, sha);
    if restored.Err? {
      return Err(restored.error), commit, events;
    }
    ghost var last;
    r, last := Confirm(cfg, failed, gate, dir, restored.value, host, num);
    events := events + last;
  }

  method ExecuteAutoRollback(cfg: DeployConfig, failed: Evidence, gate: Json, dir: EvidenceDir, token: string,
                             server: Server, host: Host, sha: string -> string, num: string -> Option<real>)
    returns (r: Result<Summary, string>, ghost commit: string, ghost events: seq<Event>)
    requires cfg.target.branch != ACTIVE_WORLD && cfg.recoveryPoll > 0
    modifies server, host`log, host`artifact, host.monitor
    ensures host.log == old(host.log) + events
    ensures r.Ok? ==> events == FullRollback(cfg, commit, |old(host.monitor.readings)|, r.value)
    ensures r.Err? ==> events <= RestoreEvents(cfg, commit, |old(host.monitor.readings)|)
    ensures events != [] ==> FromLatest(cfg, failed, dir, commit)
    ensures Confined(cfg, old(server.branches), old(server.active), server.branches, server.active)
    // a summary means: restored from evidence, verified by hash, every room recovered
    ensures r.Ok? ==> Earned(cfg, failed, gate, dir, host.monitor.readings, |old(host.monitor.readings)|, num, r.value)
    ensures r.Ok? ==> r.value.rollbackCommit == commit
    ensures r.Ok? && cfg.deploy ==> Live(cfg, server.branches, server.active, host.artifact, sha)
    // every error surfaces escalated
    ensures r.Err? ==> Escalated(r.error)
  {
    hide Earned, FromLatest, Live, Confined;
    r, commit, events := AttemptRollback(cfg, failed, gate, dir, token, server, host, sha, num);
    if r.Err? {
      SurfaceOnce(r.error);
      r := Err(Surface(r.error));
    }
  }

  // ---------- the command line run ----------

  /** The longest possible health check. */
  function FullCheck(cfg: DeployConfig, gate: Json, commit: string, seen: nat, s: Summary): seq<Event> {
    [GateRead(gate)] + FullRollback(cfg, commit, seen, s)
  }

  const NO_SUMMARY := Summary(RoomTarget("", ""), "", "", [], [], "", "")

  /** What the health check of a run came to. A rollback starts only on a triggering gate, checks out only
      the latest healthy deploy, and is escalated if it fails; a summary comes last and only if it was
      earned by a reading after the rollback's deploy; without a rollback the gate has to pass. */
  ghost predicate Checked(cfg: DeployConfig, failed: Evidence, dir: EvidenceDir, readings: seq<Record>, seen: nat,
                          num: string -> Option<real>,
                          error: Option<string>, events: seq<Event>, gate: Json, commit: string, s: Summary) {
    && events <= FullCheck(cfg, gate, commit, seen, s)
    && (|events| > 1 ==> HealthGateTriggers(gate) && FromLatest(cfg, failed, dir, commit))
    && (|events| > 4 ==> |events| == 6 && error.None? && Earned(cfg, failed, gate, dir, readings, seen, num, s))
    && (|events| <= 4 ==> (error.None? <==> |events| == 1 && Field(gate, "ok") == Bool(true)))
    && (events != [] && HealthGateTriggers(gate) && error.Some? ==> Escalated(error.value))
  }

  predicate Escalated(message: string) {
    ESCALATION <= message && Surface(message) == message
  }

  /** A gate that passes ends the check well, and one that fails without a trigger ends it with an error. */
  lemma CheckedWithoutRollback(cfg: DeployConfig, failed: Evidence, dir: EvidenceDir, readings: seq<Record>, seen: nat,
                               num: string -> Option<real>, error: Option<string>, gate: Json)
    requires error.None? <==> Field(gate, "ok") == Bool(true)
    requires HealthGateTriggers(gate) ==> error.None?
    ensures Checked(cfg, failed, dir, readings, seen, num, error, [GateRead(gate)], gate, "", NO_SUMMARY)
  {
    hide Earned, FromLatest, HealthGateTriggers;
  }

  function ErrorOf(r: Result<Summary, string>): Option<string> {
    if r.Ok? then None else Some(r.error)
  }

  function SummaryOf(r: Result<Summary, string>): Summary {
    if r.Ok? then r.value else NO_SUMMARY
  }

  /** A rollback, cut off or whole, continues the check as it should. */
  lemma CheckedWithRollback(cfg: DeployConfig, failed: Evidence, dir: EvidenceDir, readings: seq<Record>, seen: nat,
                            num: string -> Option<real>,
                            r: Result<Summary, string>, rolled: seq<Event>, gate: Json, commit: string)
    requires HealthGateTriggers(gate) && Field(gate, "ok") != Bool(true)
    requires if r.Ok? then rolled == FullRollback(cfg, commit, seen, r.value)
             else rolled <= RestoreEvents(cfg, commit, seen)
    requires if r.Ok? then Earned(cfg, failed, gate, dir, readings, seen, num, r.value) else Escalated(r.error)
    requires rolled != [] ==> FromLatest(cfg, failed, dir, commit)
    ensures Checked(cfg, failed, dir, readings, seen, num, ErrorOf(r), [GateRead(gate)] + rolled, gate, commit,
                    SummaryOf(r))
  {
    hide Earned, FromLatest, HealthGateTriggers, Escalated;
    assert [GateRead(gate)] + rolled <= FullCheck(cfg, gate, commit, seen, SummaryOf(r));
  }

  /** What follows from a gate result: nothing, an error, or a rollback. */
  method Respond(cfg: DeployConfig, failed: Evidence, gate: Json, dir: EvidenceDir, token: string,
                 server: Server, host: Host, sha: string -> string, num: string -> Option<real>)
    returns (error: Option<string>, ghost events: seq<Event>, ghost commit: string, ghost s: Summary)
    requires cfg.target.branch != ACTIVE_WORLD && cfg.recoveryPoll > 0 && cfg.deploy
    requires Live(cfg, server.branches, server.active, host.artifact, sha)
    modifies server, host`log, host`artifact, host.monitor
    ensures host.log == old(host.log) + events
    ensures Checked(cfg, failed, dir, host.monitor.readings, |old(host.monitor.readings)|, num, error,
                    [GateRead(gate)] + events, gate, commit, s)
    ensures Confined(cfg, old(server.branches), old(server.active), server.branches, server.active)
    ensures error.None? ==> Live(cfg, server.branches, server.active, host.artifact, sha)
  {
    hide Live, Checked, HealthGateTriggers, Escalated;
    error, events, commit, s := None, [], "", NO_SUMMARY;
    if Field(gate, "ok") == Bool(true) || !HealthGateTriggers(gate) {
      error := if Field(gate, "ok") == Bool(true) then None
               else Some("post-deploy health gate failed without auto-rollback trigger");
      assert [GateRead(gate)] + events == [GateRead(gate)];
      CheckedWithoutRollback(cfg, failed, dir, host.monitor.readings, |host.monitor.readings|, num, error, gate);
      return;
    }
    var summary;
    summary, commit, events := ExecuteAutoRollback(cfg, failed, gate, dir, token, server, host, sha, num);
    error, s := ErrorOf(summary), SummaryOf(summary);
    CheckedWithRollback(cfg, failed, dir, host.monitor.readings, |old(host.monitor.readings)|, num, summary, events,
                        gate, commit);
  }

  lemma NothingChecked(cfg: DeployConfig, failed: Evidence, dir: EvidenceDir, readings: seq<Record>, seen: nat,
                       num: string -> Option<real>, error: string)
    ensures Checked(cfg, failed, dir, readings, seen, num, Some(error), [], Null, "", NO_SUMMARY)
  {
  }

  /** The health gate after a deploy, and the rollback if the gate calls for one. */
  method CheckHealth(cfg: DeployConfig, failed: Evidence, token: string,
                     server: Server, host: Host, sha: string -> string, num: string -> Option<real>)
    returns (error: Option<string>, ghost events: seq<Event>, ghost gate: Json, ghost commit: string, ghost s: Summary)
    requires cfg.target.branch != ACTIVE_WORLD && cfg.recoveryPoll > 0 && cfg.deploy
    requires host.disk.folder == cfg.evidenceDir
    requires Live(cfg, server.branches, server.active, host.artifact, sha)
    modifies server, host`log, host`artifact, host`disk, host.monitor
    ensures host.log == old(host.log) + events
    ensures Checked(cfg, failed, host.disk, host.monitor.readings, |old(host.monitor.readings)|, num, error, events,
                    gate, commit, s)
    ensures events == [] ==> error.Some?
    ensures events != [] ==> gate.Obj?
    ensures events != [] && "ok" in gate.fields ==>
              Overwritten(old(host.disk), host.disk, GatePlace(cfg.evidenceDir, cfg.evidencePath), gate.fields)
    ensures Confined(cfg, old(server.branches), old(server.active), server.branches, server.active)
    ensures error.None? ==> Live(cfg, server.branches, server.active, host.artifact, sha)
  {
    hide Live, Checked, Overwritten, Touched;
    var health := host.RunPostdeployHealthGate(GatePlace(cfg.evidenceDir, cfg.evidencePath));
    if health.Err? {
      NothingChecked(cfg, failed, host.disk, host.monitor.readings, |old(host.monitor.readings)|, num, health.error);
      return Some(health.error), [], Null, "", NO_SUMMARY;
    }
    gate := Obj(health.value);
    ghost var rest;
    error, rest, commit, s := Respond(cfg, failed, Obj(health.value), host.disk, token, server, host, sha, num);
    events := [GateRead(gate)] + rest;
    assert old(host.log) + [GateRead(gate)] + rest == old(host.log) + events;
  }

  /** A whole run. `error` is what it reports, and it exits with 0 exactly if there is none. */
  method RunCli(config: Result<DeployConfig, string>, token: string, render: Evidence -> Record,
                server: Server, host: Host, sha: string -> string, num: string -> Option<real>)
    returns (error: Option<string>, ghost events: seq<Event>, ghost gate: Json, ghost commit: string,
             ghost failed: Evidence, ghost s: Summary)
    requires config.Ok? ==> config.value.target.branch != ACTIVE_WORLD && config.value.recoveryPoll > 0
    requires config.Ok? ==> host.disk.folder == config.value.evidenceDir
    modifies server, host`log, host`artifact, host`disk, host.monitor
    ensures host.log == old(host.log) + events
    ensures config.Err? ==> error.Some? && events == []
    ensures config.Ok? ==> var cfg := config.value;
      && events != [] && events[0] == Deployed(cfg, |old(host.monitor.readings)|)
      && Confined(cfg, old(server.branches), old(server.active), server.branches, server.active)
      && (error.None? && cfg.deploy ==> Live(cfg, server.branches, server.active, host.artifact, sha))
      // the gate is looked at only after a live deploy that asked for it, and then decides the run
      && (if |events| == 1 then error.None? ==> !(cfg.deploy && cfg.autoRollback)
          else cfg.deploy && cfg.autoRollback && failed.target == cfg.target
               // by then the run has written its own evidence and the gate into the directory it rolls back from
               && gate.Obj?
               && ("ok" in gate.fields ==>
                   Prepared(old(host.disk), host.disk, cfg.evidencePath, render(failed), gate.fields))
               && Checked(cfg, failed, host.disk, host.monitor.readings, |old(host.monitor.readings)|, num, error,
                          events[1..], gate, commit, s))
  {
    hide Live, Checked, Overwritten, Touched;
    error, events, gate, commit, s := None, [], Null, "", NO_SUMMARY;
    failed := Evidence(false, Target("", "", "", ""), "", "", [], false, None, false);
    if config.Err? {
      error := Some(config.error);
      return;
    }
    var cfg := config.value;
    var evidence := DeployHere(cfg, token, server, host, sha);
    events := [Deployed(cfg, |host.monitor.readings|)];
    if evidence.Err? {
      error := Some(evidence.error);
      return;
    }
    failed := evidence.value;
    host.WriteEvidence(cfg.evidencePath, render(evidence.value));
    if cfg.deploy && cfg.autoRollback {
      ghost var mid := host.disk;
      ghost var checked;
      error, checked, gate, commit, s := CheckHealth(cfg, evidence.value, token, server, host, sha, num);
      events := events + checked;
      assert events[1..] == checked;
      if checked != [] && "ok" in gate.fields {
        assert PreparedBy(old(host.disk), mid, host.disk, cfg.evidencePath, render(failed), gate.fields);
      }
    }
  }

  /** A summary is about the target of the run, and names the evidence it was restored from: that of the most
      recent healthy deploy of the same target and of another commit than the failed one, and its gate. */
  lemma SummaryNamesHealthyDeploy(cfg: DeployConfig, failed: Evidence, gate: Json, dir: EvidenceDir,
                                  readings: seq<Record>, seen: nat, num: string -> Option<real>, s: Summary)
    returns (k: nat)
    requires Earned(cfg, failed, gate, dir, readings, seen, num, s)
    ensures IsMostRecent(dir, failed.target, failed.commit, cfg.evidencePath, k) && dir.stems[k] == s.previousStem
    ensures IsHealthyDeploy(dir, s.previousStem, s.rollbackCommit, failed.target)
    ensures GateOf(s.previousStem, s.previousGate) && s.rollbackCommit != failed.commit
    ensures s.target == RoomTarget(cfg.target.shard, cfg.target.room)
    ensures s.failedCommit == if failed.commit != "" then failed.commit else "unknown"
  {
    hide IsLatest, IsMostRecent, IsHealthyDeploy, AllRecovered, AreRecoveryTargets, AreKinds, IsHealthy, MayReturnTo,
         TargetValues, PreviousOf, PairedHealthGate, GateOf;
    var previous, targets :| s == Summarize(cfg, failed, previous, s.triggerKinds, targets)
      && IsLatest(dir, failed.target, failed.commit, cfg.evidencePath, previous)
      && AreRecoveryTargets(gate, Home(cfg), targets) && AreKinds(Reasons(gate), s.triggerKinds)
      && |readings| > seen && AllRecovered(readings[|readings| - 1], targets, num);
    k := LatestIsMostRecent(dir, failed.target, failed.commit, cfg.evidencePath, previous);
    MostRecentListed(dir, failed.target, failed.commit, cfg.evidencePath, k);
    GateOfPaired(s.previousStem, s.previousGate);
    LatestIsHealthy(dir, failed.target, failed.commit, cfg.evidencePath, previous);
    KnownCommit(dir, s.previousStem, s.rollbackCommit, failed.target);
  }

  lemma KnownCommit(dir: EvidenceDir, stem: string, commit: string, target: Target)
    requires IsHealthyDeploy(dir, stem, commit, target)
    ensures commit != ""
  {
  }

  /** How a summary was earned. */
  lemma EarnedBy(cfg: DeployConfig, failed: Evidence, gate: Json, dir: EvidenceDir, readings: seq<Record>,
                 seen: nat, num: string -> Option<real>, s: Summary) returns (targets: seq<RoomTarget>)
    requires Earned(cfg, failed, gate, dir, readings, seen, num, s)
    ensures |readings| > seen && AllRecovered(readings[|readings| - 1], targets, num)
    ensures AreRecoveryTargets(gate, Home(cfg), targets) && s.recoveryTargets == Map(targets, Format)
  {
    var previous;
    previous, targets :| s == Summarize(cfg, failed, previous, s.triggerKinds, targets)
      && IsLatest(dir, failed.target, failed.commit, cfg.evidencePath, previous)
      && AreRecoveryTargets(gate, Home(cfg), targets) && AreKinds(Reasons(gate), s.triggerKinds)
      && |readings| > seen && AllRecovered(readings[|readings| - 1], targets, num);
  }

  lemma TriggerHasOk(gate: Record)
    requires HealthGateTriggers(Obj(gate))
    ensures "ok" in gate
  {
  }

  /** Whatever a rollback checks out is, of the files it finds, the most recent one to return to. It could be
      chosen before the run as far as the run's evidence leaves its gate, does not share the run's gate, and is
      the most recent of those. Unless the evidence is filed under the name of a gate, it was healthy before the
      run, and no deploy that could be returned to then and has another gate is more recent. */
  lemma RestoresHealthyBefore(cfg: DeployConfig, failed: Evidence, before: EvidenceDir, after: EvidenceDir,
                              evidence: Record, gate: Record, commit: string) returns (stem: string, k: nat)
    requires Prepared(before, after, cfg.evidencePath, evidence, gate)
    requires HealthGateTriggers(Obj(gate)) && FromLatest(cfg, failed, after, commit)
    ensures IsMostRecent(after, failed.target, failed.commit, cfg.evidencePath, k) && after.stems[k] == stem
    ensures IsHealthyDeploy(after, stem, commit, failed.target)
    ensures StaysCandidate(before, failed.target, failed.commit, cfg.evidencePath, evidence, stem)
    ensures PreviousOf(before, stem).commit == commit
    ensures forall other :: StaysCandidate(before, failed.target, failed.commit, cfg.evidencePath, evidence, other) ==>
              TextLeq(Recency(before, other), Recency(before, stem))
    ensures !NamedLikeGate(cfg.evidencePath) ==>
      && IsHealthyDeploy(before, stem, commit, failed.target)
      && MayReturnTo(before, failed.target, failed.commit, cfg.evidencePath, stem)
      && forall other :: MayReturnTo(before, failed.target, failed.commit, cfg.evidencePath, other)
                         && !SharesGate(before.folder, cfg.evidencePath, other) ==>
           TextLeq(Recency(before, other), Recency(before, stem))
  {
    hide Prepared, StaysCandidate, IsLatest, IsHealthy, IsMostRecent, IsHealthyDeploy, MayReturnTo, Recency, TextLeq,
         SharesGate, PreviousOf, IsCandidate, HealthGateTriggers;
    var p :| IsLatest(after, failed.target, failed.commit, cfg.evidencePath, p) && p.commit == commit;
    TriggerFails(gate);
    ChosenBefore(before, after, failed.target, failed.commit, cfg.evidencePath, evidence, gate, p);
    stem := p.stem;
    k := LatestIsMostRecent(after, failed.target, failed.commit, cfg.evidencePath, p);
    MostRecentListed(after, failed.target, failed.commit, cfg.evidencePath, k);
    if !NamedLikeGate(cfg.evidencePath) {
      HealthyBefore(before, failed.target, failed.commit, cfg.evidencePath, evidence, stem);
      forall other | MayReturnTo(before, failed.target, failed.commit, cfg.evidencePath, other)
          && !SharesGate(before.folder, cfg.evidencePath, other)
        ensures TextLeq(Recency(before, other), Recency(before, stem))
      {
        CandidateIs(before, failed.target, failed.commit, cfg.evidencePath, other);
        CandidatesBefore(before, failed.target, failed.commit, cfg.evidencePath, evidence, other);
      }
    }
  }

  lemma TriggerFails(gate: Record)
    requires HealthGateTriggers(Obj(gate))
    ensures Get(gate, "ok") != Bool(true)
  {
  }

  lemma MostRecentListed(dir: EvidenceDir, target: Target, commit: string, evidencePath: Option<Place>, k: nat)
    requires IsMostRecent(dir, target, commit, evidencePath, k)
    ensures k < |dir.stems|
  {
  }

  lemma HealthyBefore(dir: EvidenceDir, target: Target, commit: string, evidencePath: Option<Place>,
                      evidence: Record, stem: string)
    requires !NamedLikeGate(evidencePath) && StaysCandidate(dir, target, commit, evidencePath, evidence, stem)
    ensures IsHealthyDeploy(dir, stem, PreviousOf(dir, stem).commit, target)
    ensures MayReturnTo(dir, target, commit, evidencePath, stem)
  {
    CandidatesBefore(dir, target, commit, evidencePath, evidence, stem);
    CandidateIs(dir, target, commit, evidencePath, stem);
    hide PreviousOf, IsHealthy, IsHealthyDeploy, TargetValues;
    HealthyMeans(dir, stem, PreviousOf(dir, stem).commit, target);
  }

  /** The steps of a health check come in this order: the gate is read, the sources are checked out and rebuilt,
      the result is deployed to the same target under evidence of its own and without a rollback of its own, and
      once everything has recovered the incident is filed and the summary written. */
  lemma ChecksInOrder(cfg: DeployConfig, failed: Evidence, dir: EvidenceDir, readings: seq<Record>, seen: nat,
                      num: string -> Option<real>, error: Option<string>, events: seq<Event>, gate: Json,
                      commit: string, s: Summary)
    requires Checked(cfg, failed, dir, readings, seen, num, error, events, gate, commit, s)
    ensures |events| <= 6 && |events| != 5
    ensures |events| > 0 ==> events[0] == GateRead(gate)
    ensures |events| > 1 ==> events[1] == CheckedOut(commit)
    ensures |events| > 2 ==> events[2] == Rebuilt
    ensures |events| > 3 ==> events[3].Deployed? && events[3].seen == seen
    ensures |events| > 3 ==>
      events[3].cfg == cfg.(evidencePath := Some(Place(cfg.evidenceDir, "auto-rollback-deploy", ".json")),
                            autoRollback := false)
    ensures |events| > 4 ==> events[4] == IssueOpened && events[5] == SummaryWritten(s)
  {
    hide Earned, FromLatest, HealthGateTriggers, Escalated;
    var full := FullCheck(cfg, gate, commit, seen, s);
    assert |full| == 6;
    assert forall i :: 0 <= i < |events| ==> events[i] == full[i];
  }

  function IsDeployEvent(): Event -> bool {
    (e: Event) => e.Deployed?
  }

  lemma PrefixCounts(part: seq<Event>, whole: seq<Event>)
    requires part <= whole
    ensures Count(part, IsDeployEvent()) <= Count(whole, IsDeployEvent())
  {
    assert whole == part + whole[|part|..];
    FilterConcat(part, whole[|part|..], IsDeployEvent());
  }

  lemma OneDeployIn(cfg: DeployConfig, gate: Json, commit: string, seen: nat, s: Summary)
    ensures Count(FullCheck(cfg, gate, commit, seen, s), IsDeployEvent()) == 1
  {
    hide Filter;
    var p := IsDeployEvent();
    var head, last: seq<Event> := [GateRead(gate), CheckedOut(commit), Rebuilt], [IssueOpened, SummaryWritten(s)];
    var deploy := Deployed(RollbackConfig(cfg), seen);
    assert FullCheck(cfg, gate, commit, seen, s) == head + ([deploy] + last);
    FilterConcat(head, [deploy] + last, p);
    FilterConcat([deploy], last, p);
    FilterOne(deploy, p);
    FilterNone(head, p);
    FilterNone(last, p);
  }

  /** In any run at most one deploy besides the first, which is the rollback's and follows a triggering gate.
      What is checked out could be chosen before the run and does not share its gate; it was healthy before
      unless the evidence is filed under the name of a gate. A summary is the last event, and was earned. */
  lemma OneRollback(cfg: DeployConfig, failed: Evidence, before: EvidenceDir, dir: EvidenceDir, evidence: Record,
                    readings: seq<Record>, seen: nat, num: string -> Option<real>,
                    error: Option<string>, events: seq<Event>, gate: Record, commit: string, s: Summary)
    requires events != [] && ("ok" in gate ==> Prepared(before, dir, cfg.evidencePath, evidence, gate))
    requires Checked(cfg, failed, dir, readings, seen, num, error, events[1..], Obj(gate), commit, s)
    ensures Count(events, IsDeployEvent()) <= 2
    ensures forall i :: 0 < i < |events| && events[i].Deployed? ==>
              events[i] == Deployed(RollbackConfig(cfg), seen) && HealthGateTriggers(Obj(gate))
    ensures forall i :: 0 < i < |events| && events[i].CheckedOut? ==>
              exists k: nat :: IsMostRecent(dir, failed.target, failed.commit, cfg.evidencePath, k)
                               && IsHealthyDeploy(dir, dir.stems[k], events[i].commit, failed.target)
                               && (!NamedLikeGate(cfg.evidencePath) ==>
                                   IsHealthyDeploy(before, dir.stems[k], events[i].commit, failed.target))
    ensures forall i :: 0 < i < |events| && events[i].SummaryWritten? ==>
              i == |events| - 1 && error.None?
              && Earned(cfg, failed, Obj(gate), dir, readings, seen, num, events[i].summary)
  {
    hide Earned, FromLatest, Prepared, StaysCandidate, HealthGateTriggers, Count, PreviousOf, IsHealthyDeploy,
         IsMostRecent, NamedLikeGate, MayReturnTo, SharesGate, Recency, TextLeq;
    var rest, full := events[1..], FullCheck(cfg, Obj(gate), commit, seen, s);
    FewDeploys(cfg, Obj(gate), commit, seen, s, events);
    if |rest| > 1 {
      TriggerHasOk(gate);
      var stem, k := RestoresHealthyBefore(cfg, failed, before, dir, evidence, gate, commit);
    }
    forall i | 0 < i < |events| ensures events[i] == full[i - 1] {
      assert events[i] == rest[i - 1];
    }
  }

  lemma FewDeploys(cfg: DeployConfig, gate: Json, commit: string, seen: nat, s: Summary, events: seq<Event>)
    requires events != [] && events[1..] <= FullCheck(cfg, gate, commit, seen, s)
    ensures Count(events, IsDeployEvent()) <= 2
  {
    hide FullCheck;
    assert events == [events[0]] + events[1..];
    FilterConcat([events[0]], events[1..], IsDeployEvent());
    FilterOne(events[0], IsDeployEvent());
    PrefixCounts(events[1..], FullCheck(cfg, gate, commit, seen, s));
    OneDeployIn(cfg, gate, commit, seen, s);
  }

  lemma TriggerRoomListed(gate: Json, home: RoomTarget, targets: seq<RoomTarget>, reason: Json, link: Link,
                          t: RoomTarget)
    requires AreRecoveryTargets(gate, home, targets)
    requires reason in Reasons(gate) && link in Chain(reason, Null) && IsTrigger(link.kind)
    requires RoomTargetFromValue(link.room, home.shard) == Some(t)
    ensures t in targets
  {
    TriggersByChain(reason, Null);
    TargetsCoverTriggers(gate, home, targets, reason);
  }

  lemma FormatListed(targets: seq<RoomTarget>, t: RoomTarget)
    requires t in targets
    ensures Format(t) in Map(targets, Format)
  {
    var i :| 0 <= i < |targets| && targets[i] == t;
    assert Map(targets, Format)[i] == Format(t);
  }

  /** A summary lists every room that a trigger level of the gate names. Each counted as recovered in the
      last reading, which came after the rollback's deploy, and was seen populated there exactly unless a
      lone other room spoke for it. */
  lemma SummaryCoversRooms(cfg: DeployConfig, failed: Evidence, gate: Json, dir: EvidenceDir, readings: seq<Record>,
                           seen: nat, num: string -> Option<real>, s: Summary, reason: Json, link: Link, t: RoomTarget)
    requires Earned(cfg, failed, gate, dir, readings, seen, num, s)
    requires reason in Reasons(gate) && link in Chain(reason, Null) && IsTrigger(link.kind)
    requires RoomTargetFromValue(link.room, cfg.target.shard) == Some(t)
    ensures Format(t) in s.recoveryTargets && |readings| > seen
    ensures var last := readings[|readings| - 1];
            Recovered(last, t, num) && (SeenPopulated(last, t, num) <==> !LoneStranger(last, t))
  {
    hide Earned, Recovered, SeenPopulated, LoneStranger;
    var targets := EarnedBy(cfg, failed, gate, dir, readings, seen, num, s);
    TriggerRoomListed(gate, Home(cfg), targets, reason, link, t);
    FormatListed(targets, t);
    RecoveryIsEvidence(readings[|readings| - 1], t, num);
  }
}
