/** src/index.ts: the variant without a lock that acts before each build: it
    stops the app it started on every build except the first compile of a
    target other than 'electron-main', and starts a new one only in watch mode. */
module SrcPlugin {
  import opened Wrappers
  import opened Errors
  import opened PidRecord
  import opened PackageManager
  import opened Processes
  import opened Build

  /** The arguments spawned for the configured script: `run <script>`. */
  function RunArgs(script: string): seq<string> {
    ["run", script]
  }

  /** `onBeforeBuild` */
  function BeforeBuildRule(h: Host, ev: BuildEvent, target: Option<string>,
                           execPath: Option<string>, script: string, o: Oracle): (r: Step)
    ensures r.host.launches == h.launches || r.host.launches == h.launches + [Launch(DetectSrc(execPath), RunArgs(script), o.spawn)]
    ensures r.host.launches != h.launches ==> ev.isWatch && r.outcome == Done
    ensures r.host.record != h.record ==>
      o.spawn.SpawnedPid? && o.spawn.pid != 0 && GetPid(r.host.record) == Some(Num(o.spawn.pid))
  {
    if SkipsFirstCompile(ev.isFirstCompile, target) then Step(h, Done)
    else
      var killed := ExitRule(h, o.queryFails, o.killFails);
      if killed.outcome.Rejected? then killed
      else if !ev.isWatch then killed
      else SpawnRule(killed.host, DetectSrc(execPath), RunArgs(script), o.spawn)
  }

  /** The first compile of a target other than 'electron-main' returns before
      anything else. */
  lemma BeforeBuildSkipsFirstCompile(h: Host, ev: BuildEvent, target: Option<string>,
                                     execPath: Option<string>, script: string, o: Oracle)
    requires SkipsFirstCompile(ev.isFirstCompile, target)
    ensures BeforeBuildRule(h, ev, target, execPath, script, o) == Step(h, Done)
  {
  }

  /** A build outside watch mode only stops the previous app: it kills the
      stored pid if the probe reports it alive, spawns nothing and leaves the
      record. */
  lemma BeforeBuildStopsWithoutWatch(h: Host, ev: BuildEvent, target: Option<string>,
                                     execPath: Option<string>, script: string, o: Oracle)
    requires !SkipsFirstCompile(ev.isFirstCompile, target) && !ev.isWatch
    ensures var r := BeforeBuildRule(h, ev, target, execPath, script, o);
      r == ExitRule(h, o.queryFails, o.killFails) &&
      r.host.record == h.record && r.host.launches == h.launches &&
      h.live - r.host.live <= StoredPid(h.record) &&
      (!o.queryFails && r.outcome == Done ==> StoredPid(h.record) !! r.host.live)
  {
  }

  /** A failed `taskkill` rejects before any spawn and changes nothing. */
  lemma BeforeBuildKillFailure(h: Host, ev: BuildEvent, target: Option<string>,
                               execPath: Option<string>, script: string, o: Oracle)
    requires !SkipsFirstCompile(ev.isFirstCompile, target)
    requires ExitRule(h, o.queryFails, o.killFails).outcome.Rejected?
    ensures var r := BeforeBuildRule(h, ev, target, execPath, script, o);
      r.host == h && r.outcome.Rejected?
  {
  }

  /** A watch build kills first and then spawns `<pm> run <script>` once; the
      record is overwritten only when spawn returns a truthy pid, and a spawn
      exception is caught. */
  lemma BeforeBuildRestarts(h: Host, ev: BuildEvent, target: Option<string>,
                            execPath: Option<string>, script: string, o: Oracle)
    requires !SkipsFirstCompile(ev.isFirstCompile, target) && ev.isWatch
    requires ExitRule(h, o.queryFails, o.killFails).outcome == Done
    ensures var r := BeforeBuildRule(h, ev, target, execPath, script, o);
      var killed := ExitRule(h, o.queryFails, o.killFails).host;
      r.outcome == Done &&
      r.host.launches == h.launches + [Launch(DetectSrc(execPath), RunArgs(script), o.spawn)] &&
      r.host.live == (if o.spawn.SpawnedPid? then killed.live + {o.spawn.pid} else killed.live) &&
      (if o.spawn.SpawnedPid? && o.spawn.pid != 0
       then GetPid(r.host.record) == Some(Num(o.spawn.pid))
       else r.host.record == h.record)
  {
  }

  /** With a working liveness query and truthy pids, the hook keeps at most one
      spawned app alive, the one the record names. */
  lemma BeforeBuildKeepsSingleInstance(h: Host, ev: BuildEvent, target: Option<string>,
                                       execPath: Option<string>, script: string, o: Oracle)
    requires SingleInstance(h) && Reliable(o)
    ensures SingleInstance(BeforeBuildRule(h, ev, target, execPath, script, o).host)
  {
    var killed := ExitRule(h, o.queryFails, o.killFails);
    ExitKeepsSingleInstance(h, o.queryFails, o.killFails);
    if killed.outcome == Done && ev.isWatch {
      SpawnKeepsSingleInstance(killed.host, DetectSrc(execPath), RunArgs(script), o.spawn);
    }
  }

  /** The plugin instance, created with the `script` option. */
  class Plugin {
    const machine: Machine
    const script: string

    constructor (machine: Machine, script: string)
      ensures this.machine == machine && this.script == script
    {
      this.machine := machine;
      this.script := script;
    }

    /** `modifyRsbuildConfig(() => exit())`: only ever stops the app. */
    method ModifyRsbuildConfig(queryFails: bool, killFails: bool) returns (r: Outcome)
      modifies machine
      ensures Step(machine.State(), r) == ExitRule(old(machine.State()), queryFails, killFails)
      ensures machine.record == old(machine.record) && machine.launches == old(machine.launches)
    {
      r := machine.Exit(queryFails, killFails);
    }

    /** `onBeforeBuild` */
    method OnBeforeBuild(ev: BuildEvent, target: Option<string>, execPath: Option<string>, o: Oracle)
      returns (r: Outcome)
      modifies machine
      ensures Step(machine.State(), r) == BeforeBuildRule(old(machine.State()), ev, target, execPath, script, o)
    {
      if ev.isFirstCompile && target != Some(MainTarget) {
        return Done;
      }
      r := machine.Exit(o.queryFails, o.killFails);
      if r.Rejected? {
        return;
      }
      var packageManager := DetectSrc(execPath);
      // `if (!packageManager) throw …` cannot fire: DetectSrc never returns "".
      assert packageManager != "";
      if !ev.isWatch {
        return;
      }
      machine.SpawnAndSave(packageManager, RunArgs(script), o.spawn);
      r := Done;
    }

    /** `onExit(() => exit())`: only ever stops the app. */
    method OnExit(queryFails: bool, killFails: bool) returns (r: Outcome)
      modifies machine
      ensures Step(machine.State(), r) == ExitRule(old(machine.State()), queryFails, killFails)
      ensures machine.record == old(machine.record) && machine.launches == old(machine.launches)
    {
      r := machine.Exit(queryFails, killFails);
    }
  }
}
