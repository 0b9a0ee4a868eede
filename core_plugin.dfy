/** core/index.ts: the variant that restarts the app after each watch build,
    guarded by an advisory lock on the `.pid` file so that one restart runs at a
    time across the builds (main, preload) that share the file. */
module CorePlugin {
  import opened Wrappers
  import opened Errors
  import opened PidRecord
  import opened PackageManager
  import opened Processes
  import opened Build
  import opened RootPath
  import Text

  /** The shared state plus the advisory lock on the `.pid` file. */
  datatype CoreState = CoreState(host: Host, locked: bool)

  datatype CoreStep = CoreStep(state: CoreState, outcome: Outcome)

  /** `!rootPackageJson.main` is false: `main` is set and not empty. */
  predicate HasMain(main: Option<string>) {
    main.Some? && main.value != ""
  }

  /** The arguments spawned for `main`: the single shell word list `electron <main>`. */
  function ElectronArgs(main: string): seq<string> {
    ["electron " + main]
  }

  /** Plugin creation: an absent `.pid` file is created empty; a failed write is
      caught and logged. */
  function InitRecordRule(h: Host, writeFails: bool): (r: Host)
    ensures r.live == h.live && r.launches == h.launches
    ensures h.record.Some? ==> r == h
    ensures r.record.None? ==> h.record.None? && writeFails
    ensures StoredPid(r.record) == StoredPid(h.record)
  {
    EmptyRecordIsFalsy();
    if h.record.None? && !writeFails then h.(record := Some("")) else h
  }

  /** The body of the `try` in `onAfterBuild`, run while the lock is held. */
  function RestartRule(h: Host, isFirstCompile: bool, target: Option<string>,
                       execPath: Option<string>, main: Option<string>, o: Oracle): (r: Step)
    ensures SkipsFirstCompile(isFirstCompile, target) ==> r == Step(h, Done)
    ensures r.host.launches == h.launches ||
      (DetectCore(execPath).Success? && HasMain(main) && r.host.launches ==
         h.launches + [Launch(ManagerName(DetectCore(execPath).value), ElectronArgs(main.value), o.spawn)])
    ensures r.outcome.Rejected? ==> r.host.launches == h.launches && r.host.record == h.record
    ensures r.host.record != h.record ==>
      o.spawn.SpawnedPid? && o.spawn.pid != 0 && GetPid(r.host.record) == Some(Num(o.spawn.pid))
  {
    if SkipsFirstCompile(isFirstCompile, target) then Step(h, Done)
    else
      var killed := ExitRule(h, o.queryFails, o.killFails);
      if killed.outcome.Rejected? then killed
      else match DetectCore(execPath)
        case Failure(e) => Step(killed.host, Rejected(e))
        case Success(m) =>
          if !HasMain(main) then Step(killed.host, Rejected(NoMainField))
          else SpawnRule(killed.host, ManagerName(m), ElectronArgs(main.value), o.spawn)
  }

  /** `onAfterBuild`: nothing outside watch mode or while the lock is held;
      otherwise take the lock, run the restart and release the lock. */
  function AfterBuildRule(s: CoreState, ev: BuildEvent, target: Option<string>,
                          execPath: Option<string>, main: Option<string>, o: Oracle): (r: CoreStep)
    ensures r.state.locked == s.locked
  {
    if !ev.isWatch || s.locked then CoreStep(s, Done)
    else
      var inside := RestartRule(s.host, ev.isFirstCompile, target, execPath, main, o);
      CoreStep(CoreState(inside.host, false), inside.outcome)
  }

  /** Loading the module: `packageManager` is detected once, then `ROOT_PATH`
      is found from the working directory; either failure throws at import. */
  method ResolveRoot(execPath: Option<string>, cwd: Path, existing: set<Path>) returns (r: Result<Path, Error>)
    ensures DetectCore(execPath).Failure? ==> r == Failure(NoPackageManager)
    ensures r.Success? ==>
      DetectCore(execPath).Success? && Join(r.value, LockFileName(DetectCore(execPath).value)) in existing
    ensures r.Success? ==>
      exists k :: MinDepth(cwd) <= k <= |cwd.segments| && r.value == Ancestor(cwd, k)
    ensures r.Success? ==> forall k :: |r.value.segments| < k <= |cwd.segments| ==>
      Join(Ancestor(cwd, k), LockFileName(DetectCore(execPath).value)) !in existing
    ensures r.Failure? && DetectCore(execPath).Success? ==>
      r.error == LockFileNotFound(LockFileName(DetectCore(execPath).value))
    ensures r.Failure? && DetectCore(execPath).Success? ==>
      forall k :: MinDepth(cwd) <= k <= |cwd.segments| ==>
        Join(Ancestor(cwd, k), LockFileName(DetectCore(execPath).value)) !in existing
  {
    var packageManager := DetectCore(execPath);
    if packageManager.Failure? {
      return Failure(packageManager.error);
    }
    r := FindRootPath(cwd, packageManager.value, existing);
  }

  /** Creating the plugin leaves nothing for `exit` to kill when there was no record. */
  lemma InitRecordIsHarmless(h: Host, writeFails: bool, queryFails: bool, killFails: bool)
    requires h.record.None?
    ensures var h1 := InitRecordRule(h, writeFails);
      h1.live == h.live && h1.launches == h.launches &&
      ExitRule(h1, queryFails, killFails) == Step(h1, Done)
  {
    EmptyRecordIsFalsy();
  }

  /** Outside watch mode, or while the lock is held, the hook takes no lock,
      kills nothing, spawns nothing and leaves the record. */
  lemma AfterBuildIdle(s: CoreState, ev: BuildEvent, target: Option<string>,
                       execPath: Option<string>, main: Option<string>, o: Oracle)
    requires !ev.isWatch || s.locked
    ensures AfterBuildRule(s, ev, target, execPath, main, o) == CoreStep(s, Done)
  {
  }

  /** The first compile of a target other than 'electron-main' kills and spawns
      nothing and leaves the record. */
  lemma AfterBuildSkipsFirstCompile(s: CoreState, ev: BuildEvent, target: Option<string>,
                                    execPath: Option<string>, main: Option<string>, o: Oracle)
    requires ev.isWatch && SkipsFirstCompile(ev.isFirstCompile, target)
    ensures AfterBuildRule(s, ev, target, execPath, main, o).state.host == s.host
    ensures AfterBuildRule(s, ev, target, execPath, main, o).outcome == Done
  {
  }

  /** A failed `taskkill` rejects before any spawn, with the record and the
      process table unchanged. */
  lemma AfterBuildKillFailure(s: CoreState, ev: BuildEvent, target: Option<string>,
                              execPath: Option<string>, main: Option<string>, o: Oracle)
    requires ev.isWatch && !s.locked && !SkipsFirstCompile(ev.isFirstCompile, target)
    requires ExitRule(s.host, o.queryFails, o.killFails).outcome.Rejected?
    ensures var r := AfterBuildRule(s, ev, target, execPath, main, o);
      r.state.host == s.host && r.outcome == ExitRule(s.host, o.queryFails, o.killFails).outcome
  {
  }

  /** Without a detected package manager or a `main` field the previous process
      is already killed, nothing is spawned, the record is kept, and the hook
      rejects. In a normal run `npm_execpath` does not change after the module
      is loaded, and loading already threw for an undetected manager, so only a
      missing `main` reaches this case; the other half is kept because the hook
      calls `detectPackageManager` again. */
  lemma AfterBuildMissingLaunchInfo(s: CoreState, ev: BuildEvent, target: Option<string>,
                                    execPath: Option<string>, main: Option<string>, o: Oracle)
    requires ev.isWatch && !s.locked && !SkipsFirstCompile(ev.isFirstCompile, target)
    requires ExitRule(s.host, o.queryFails, o.killFails).outcome == Done
    requires DetectCore(execPath).Failure? || !HasMain(main)
    ensures var r := AfterBuildRule(s, ev, target, execPath, main, o);
      r.state.host == ExitRule(s.host, o.queryFails, o.killFails).host &&
      r.outcome == Rejected(if DetectCore(execPath).Failure? then NoPackageManager else NoMainField)
  {
  }

  /** Otherwise the previous process is killed first and then exactly one
      `<pm> "electron <main>"` is spawned; the record then holds the new pid if
      spawn returned a truthy one and is unchanged otherwise (no pid, or an
      exception that is caught). */
  lemma AfterBuildRestarts(s: CoreState, ev: BuildEvent, target: Option<string>,
                           execPath: Option<string>, main: Option<string>, o: Oracle)
    requires ev.isWatch && !s.locked && !SkipsFirstCompile(ev.isFirstCompile, target)
    requires ExitRule(s.host, o.queryFails, o.killFails).outcome == Done
    requires DetectCore(execPath).Success? && HasMain(main)
    ensures var r := AfterBuildRule(s, ev, target, execPath, main, o);
      var killed := ExitRule(s.host, o.queryFails, o.killFails).host;
      r.outcome == Done &&
      r.state.host.launches ==
        s.host.launches + [Launch(ManagerName(DetectCore(execPath).value), ElectronArgs(main.value), o.spawn)] &&
      r.state.host.live == (if o.spawn.SpawnedPid? then killed.live + {o.spawn.pid} else killed.live) &&
      (if o.spawn.SpawnedPid? && o.spawn.pid != 0
       then GetPid(r.state.host.record) == Some(Num(o.spawn.pid))
       else r.state.host.record == s.host.record)
  {
  }

  /** Each hook makes at most one `spawn` call, and the record changes only to
      the truthy pid that call returned. */
  lemma AfterBuildAtMostOneSpawn(s: CoreState, ev: BuildEvent, target: Option<string>,
                                 execPath: Option<string>, main: Option<string>, o: Oracle)
    ensures var r := AfterBuildRule(s, ev, target, execPath, main, o).state.host;
      |s.host.launches| <= |r.launches| <= |s.host.launches| + 1 &&
      r.launches[..|s.host.launches|] == s.host.launches &&
      (r.record != s.host.record ==>
         |r.launches| == |s.host.launches| + 1 && o.spawn.SpawnedPid? && o.spawn.pid != 0 &&
         GetPid(r.record) == Some(Num(o.spawn.pid)))
  {
  }

  /** With a working liveness query and truthy pids, the hook keeps at most one
      spawned app alive, the one the record names. */
  lemma AfterBuildKeepsSingleInstance(s: CoreState, ev: BuildEvent, target: Option<string>,
                                      execPath: Option<string>, main: Option<string>, o: Oracle)
    requires SingleInstance(s.host) && Reliable(o)
    ensures SingleInstance(AfterBuildRule(s, ev, target, execPath, main, o).state.host)
  {
    if ev.isWatch && !s.locked && !SkipsFirstCompile(ev.isFirstCompile, target) {
      var killed := ExitRule(s.host, o.queryFails, o.killFails);
      ExitKeepsSingleInstance(s.host, o.queryFails, o.killFails);
      var pm := DetectCore(execPath);
      if killed.outcome == Done && pm.Success? && HasMain(main) {
        SpawnKeepsSingleInstance(killed.host, ManagerName(pm.value), ElectronArgs(main.value), o.spawn);
        assert RestartRule(s.host, ev.isFirstCompile, target, execPath, main, o)
          == SpawnRule(killed.host, ManagerName(pm.value), ElectronArgs(main.value), o.spawn);
      } else {
        assert RestartRule(s.host, ev.isFirstCompile, target, execPath, main, o).host == killed.host;
      }
    }
  }

  /** A failed liveness query leaves the old app running next to the new one. */
  lemma QueryFailureLeavesTwoApps()
    ensures var h := Host({7}, Some("7"), [Launch("yarn", ElectronArgs("main.js"), SpawnedPid(7))]);
      var r := AfterBuildRule(CoreState(h, false), BuildEvent(false, true), Some(MainTarget),
                              Some("yarn.js"), Some("main.js"), Oracle(true, false, SpawnedPid(8)));
      SingleInstance(h) && Children(r.state.host.launches) * r.state.host.live == {7, 8}
  {
    var h := Host({7}, Some("7"), [Launch("yarn", ElectronArgs("main.js"), SpawnedPid(7))]);
    var o := Oracle(true, false, SpawnedPid(8));
    assert FormatDecimal(7) == "7";
    SavedPidReadsBack(7);
    assert StoredPid(h.record) == {7};
    assert h.launches == [] + [h.launches[0]];
    ChildrenAppend([], h.launches[0]);
    assert Children(h.launches) == {7};
    // the failed query hides the live app 7 from `exit`
    assert ExitRule(h, true, false) == Step(h, Done);
    assert Text.OccursAt("yarn.js", "yarn", 0);
    assert DetectCore(Some("yarn.js")) == Success(Yarn);
    var l := Launch("yarn", ElectronArgs("main.js"), SpawnedPid(8));
    var spawned := SpawnRule(h, "yarn", ElectronArgs("main.js"), SpawnedPid(8));
    assert RestartRule(h, false, Some(MainTarget), Some("yarn.js"), Some("main.js"), o) == spawned;
    assert spawned.host.live == {7, 8} && spawned.host.launches == h.launches + [l];
    ChildrenAppend(h.launches, l);
  }

  /** The plugin instance: the machine it acts on, the advisory lock, and the
      `release` function it keeps between hooks. */
  class Plugin {
    const machine: Machine
    /** The advisory lock on the `.pid` file, held by this or another build. */
    var locked: bool
    /** `release` frees a lock this instance holds (it does only inside a hook). */
    var holdsLock: bool

    ghost predicate Valid()
      reads this
    {
      !holdsLock
    }

    function State(): CoreState
      reads this, machine
    {
      CoreState(machine.State(), locked)
    }

    /** The plugin factory, which creates an absent `.pid` file empty. */
    constructor (machine: Machine, locked: bool, writeFails: bool)
      modifies machine
      ensures this.machine == machine && Valid()
      ensures State() == CoreState(InitRecordRule(old(machine.State()), writeFails), locked)
    {
      this.machine := machine;
      this.locked := locked;
      holdsLock := false;
      new;
      if machine.record.None? && !writeFails {
        machine.WriteRecord("");
      }
    }

    /** `release()`: frees the lock only if this instance holds it. */
    method Release()
      modifies this
      ensures !holdsLock && locked == (old(locked) && !old(holdsLock))
    {
      if holdsLock {
        locked, holdsLock := false, false;
      }
    }

    /** The `try` block of `onAfterBuild`. */
    method Restart(isFirstCompile: bool, target: Option<string>, execPath: Option<string>,
                   main: Option<string>, o: Oracle) returns (r: Outcome)
      modifies machine
      ensures Step(machine.State(), r) == RestartRule(old(machine.State()), isFirstCompile, target, execPath, main, o)
    {
      if isFirstCompile && target != Some(MainTarget) {
        return Done;
      }
      r := machine.Exit(o.queryFails, o.killFails);
      if r.Rejected? {
        return;
      }
      var packageManager := DetectCore(execPath);
      if packageManager.Failure? {
        return Rejected(packageManager.error);
      }
      // `if (!packageManager) throw …` cannot fire: every manager name is non-empty.
      assert ManagerName(packageManager.value) != "";
      if !HasMain(main) {
        return Rejected(NoMainField);
      }
      machine.SpawnAndSave(ManagerName(packageManager.value), ElectronArgs(main.value), o.spawn);
      r := Done;
    }

    /** `onAfterBuild` */
    method OnAfterBuild(ev: BuildEvent, target: Option<string>, execPath: Option<string>,
                        main: Option<string>, o: Oracle) returns (r: Outcome)
      requires Valid()
      modifies this, machine
      ensures Valid()
      ensures CoreStep(State(), r) == AfterBuildRule(old(State()), ev, target, execPath, main, o)
    {
      if !ev.isWatch {
        return Done;
      }
      var isLock := locked;
      if isLock {
        return Done;
      }
      locked, holdsLock := true, true;
      r := Restart(ev.isFirstCompile, target, execPath, main, o);
      // finally
      Release();
    }

    /** `onCloseBuild`: `await release()`, which frees nothing between hooks. */
    method OnCloseBuild()
      requires Valid()
      modifies this
      ensures Valid() && State() == old(State())
    {
      Release();
    }

    /** `onExit`: `exit()` and `release()`, neither awaited; `detached` is how
        the unawaited `exit()` settles. */
    method OnExit(queryFails: bool, killFails: bool) returns (detached: Outcome)
      requires Valid()
      modifies this, machine
      ensures Valid() && locked == old(locked)
      ensures Step(machine.State(), detached) == ExitRule(old(machine.State()), queryFails, killFails)
    {
      detached := machine.Exit(queryFails, killFails);
      Release();
    }
  }
}
