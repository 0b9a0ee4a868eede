# electron-restart: a Dafny model of the restart supervisor

`rsbuild-electron-restart` is an Rsbuild plugin that keeps exactly one Electron
app running while Rsbuild rebuilds in watch mode. It stores the pid of the app
it started in a `.pid` file, stops that app with `taskkill` when the probe
`tasklist` reports it alive, and starts a new one with the package manager
that launched the build. The repository has two variants:

- `core/index.ts` acts **after** each build (`onAfterBuild`), only in watch
  mode, and guards the restart with an advisory lock on the `.pid` file, so that
  the main and preload builds sharing the file do not restart the app twice. It
  also creates an empty `.pid` file when the plugin is created, and finds the
  project root by walking up to the package manager's lock file.
- `src/index.ts` acts **before** each build (`onBeforeBuild`), has no lock,
  stops the app on every build except the first compile of a target other than
  `electron-main`, and starts a new one only in watch mode. It also
  stops the app from `modifyRsbuildConfig` and `onExit`.

The model works over an abstract operating system: a set of live pids, the
`.pid` record (absent, or its text) and the log of every `spawn` call. The
outcomes of the Windows calls are parameters of each hook (an `Oracle`): whether
the `tasklist` query fails, whether `taskkill` fails, and whether `spawn`
returns a pid, returns no pid, or throws.

Layout:

- `wrappers.dfy`, `errors.dfy`, `text.dfy`: `Option`/`Result`, the errors the
  hooks throw, and JavaScript's `includes`/`endsWith`.
- `pid_record.dfy` (`PidRecord`): `savePid`'s decimal text, `getPid`'s
  `Number(content)` and JavaScript truthiness, with the round trip proved.
- `package_manager.dfy` (`PackageManager`): both `detectPackageManager`s. The
  literal `'\pnpm.cjs'` is `pnpm.cjs` (the unknown escape `\p` drops its
  backslash) and `'\npm-cli.js'` is a newline followed by `pm-cli.js`; the model
  evaluates them that way, so core/index.ts detects npm only for a path ending in
  a newline and `pm-cli.js`, and throws for a Windows npm path
  (`WindowsNpmPathUndetected`), where src/index.ts falls back to `npm`.
- `root_path.dfy` (`RootPath`): `findRootPath` as a `while` loop over an
  abstract set of existing files, proved to return the nearest directory with
  the lock file and to terminate.
- `processes.dfy` (`Processes`): the rules shared by both variants
  (`isPidValid`, `killProcessByPid`, `exit`, the guarded `spawn` and `savePid`)
  as functions, the invariant `SingleInstance` (of the apps the plugin spawned,
  at most the one the record names is alive), and the class `Machine` whose
  methods change the process table and the record step by step.
- `build.dfy` (`Build`): the event flags and the `'electron-main'` target test.
- `core_plugin.dfy` (`CorePlugin`) and `src_plugin.dfy` (`SrcPlugin`): each
  hook as a rule function with lemmas about it, and a `Plugin` class whose hook
  methods are proved equal to those rules. In `CorePlugin.Plugin`, `holdsLock`
  stands for the `release` variable holding a lock this instance took; the lock
  is released on every path because `OnAfterBuild` calls `Release` after
  `Restart` whatever `Restart` returns.

In these respects the model follows the code as written:

- A failed spawn, or a build outside watch mode, leaves the record as it was;
  nothing clears it.
- A record that is not a number reads as `NaN` and is simply falsy: no kill, no
  warning.
- There are no timeouts on the probe or the kill.
- Only core/index.ts has a lock.
- When the `main` field is missing, core/index.ts has already killed the
  previous app before it throws. The hook's own "no package manager" throw
  comes at the same point, but in a normal run it cannot fire: `npm_execpath`
  does not change after the module is loaded, and loading already threw for
  an undetected manager (core/index.ts:28).

## Model

| member | source | states |
|---|---|---|
| `PidRecord.FormatDecimal` | core/index.ts:92-94 | `savePid` writes a non-empty string of decimal digits with no leading zero unless the pid is 0 |
| `PidRecord.Number` | core/index.ts:89 | `Number(content)` is `0` for the empty text and `NaN` exactly when some character is not a digit |
| `PidRecord.GetPid` | core/index.ts:85-90 | `getPid` returns `undefined` exactly when the record file is absent |
| `PidRecord.FormatDecimalValue` | core/index.ts:93 | the digits `savePid` writes have the pid's value |
| `PidRecord.SavedPidReadsBack` | src/index.ts:54-66 | `savePid(p)` then `getPid()` returns `p`, and that value is truthy exactly when `p` is not 0 |
| `PidRecord.FormatDecimalInjective` | core/index.ts:92-94 | two different pids are never saved as the same text |
| `PidRecord.EmptyRecordIsFalsy` | core/index.ts:104-106 | the empty record created at init reads as `0`, which is falsy |
| `PidRecord.NonNumericRecordIsFalsy` | core/index.ts:89 | a record with a non-digit character reads as `NaN`, which is falsy |
| `PidRecord.Truthy` | core/index.ts:99 | `pid &&`: `undefined`, `0` and `NaN` are falsy, and a truthy value is a positive number |
| `Text.Contains` | core/index.ts:18 | `includes`: a string includes only strings no longer than itself |
| `Text.EndsWith` | core/index.ts:20 | `endsWith`: a suffix is no longer than the string and is included in it |
| `Build.SkipsFirstCompile` | core/index.ts:128 | exactly the first compile of a target other than `electron-main` is skipped, an unset target included (the same test as src/index.ts:83) |
| `PackageManager.LockFileName` | core/index.ts:10-14 | each manager's lock file is one of `package-lock.json`, `pnpm-lock.yaml`, `yarn.lock` |
| `PackageManager.DetectCore` | core/index.ts:16-26 | `yarn` exactly when the path contains "yarn"; else `pnpm` exactly for a `pnpm.cjs` suffix; else `npm` exactly for a newline + `pm-cli.js` suffix; it throws exactly when the variable is unset or none of these holds |
| `PackageManager.DetectSrc` | src/index.ts:7-16 | total: one of `yarn`, `pnpm -w`, `npm`, never empty, and `yarn` exactly when the path contains "yarn" |
| `PackageManager.DetectVariantsAgree` | src/index.ts:7-16 | the two detectors agree wherever core/index.ts detects a manager, and src/index.ts answers `npm` exactly where core/index.ts detects npm or throws |
| `PackageManager.WindowsNpmPathUndetected` | core/index.ts:22 | a Windows npm path (`…\npm-cli.js`) makes core/index.ts throw, while src/index.ts answers `npm` |
| `PackageManager.PosixPnpmPathDetected` | core/index.ts:20 | `'\pnpm.cjs'` is `pnpm.cjs`, so a POSIX pnpm path (slash before `pnpm.cjs`) is detected as pnpm, and as `pnpm -w` by src/index.ts |
| `RootPath.Parent` | core/index.ts:71 | the parent keeps the volume and drops the last name; a volume root is its own parent |
| `RootPath.FindRootPath` | core/index.ts:63-80 | returns the nearest directory, from the working directory upward, holding the manager's lock file (no nearer one has it); throws `No find <lockFile>` only when no inspected directory has it; the POSIX root `/` is never inspected |
| `CorePlugin.ResolveRoot` | core/index.ts:28 | loading the module throws when no manager is detected; otherwise it yields the nearest directory from the working directory upward (never `/`) holding that manager's lock file, and throws `No find <lockFile>` only when no inspected directory has it |
| `Processes.IsPidValid` | core/index.ts:30-42 | the probe never reports a pid that is not live, and a failed query resolves to false |
| `Processes.KillRule` | core/index.ts:44-61 | only the given pid can be killed; a dead pid or a failed query gives no kill and no error; a failed `taskkill` rejects and changes nothing; a successful kill after a working query leaves the pid dead; record and spawns untouched |
| `Processes.KillIdempotent` | src/index.ts:32-49 | after a successful kill, killing the same pid again is a no-op whatever the OS answers |
| `Processes.StoredPid` | core/index.ts:96-99 | the record names at most one pid, and one exactly when `getPid` is truthy |
| `Processes.ExitRule` | core/index.ts:96-100 | `exit` kills nothing but the stored pid; it is a resolved no-op when `getPid` is falsy, the stored pid is dead or the query fails; it rejects exactly when the stored pid is truthy, alive, the query works and `taskkill` fails, and then changes nothing; it never writes the record or spawns; after a working query that resolves, the stored pid is dead |
| `Processes.SpawnRule` | core/index.ts:146-162 | one `spawn` call is logged; a returned pid is live; the record changes only to a truthy returned pid, which `getPid` then reads back; an exception is caught |
| `Processes.SingleInstance` | core/index.ts:118-167 | the plugin's purpose: of the apps it spawned, at most the one the record names is alive, so at most one is alive |
| `Processes.ExitKeepsSingleInstance` | src/index.ts:73-78 | `exit` keeps "at most the recorded child alive", and after a working query that resolves no child is alive |
| `Processes.SpawnKeepsSingleInstance` | src/index.ts:96-114 | a spawn made with no child alive leaves exactly the new, recorded child alive |
| `Processes.Machine.WriteRecord` | core/index.ts:106 | writing the file replaces the record and nothing else |
| `Processes.Machine.SavePid` | core/index.ts:92-94 | the record holds the pid's decimal text, which `getPid` reads back as the pid |
| `Processes.Machine.KillProcessByPid` | core/index.ts:44-61 | the process table and outcome follow `KillRule` |
| `Processes.Machine.Exit` | core/index.ts:96-100 | the process table and outcome follow `ExitRule` |
| `Processes.Machine.Spawn` | src/index.ts:98-106 | the call is logged, a returned pid becomes live, the record is untouched |
| `Processes.Machine.SpawnAndSave` | src/index.ts:97-114 | the state follows `SpawnRule` and the promise resolves |
| `CorePlugin.InitRecordIsHarmless` | core/index.ts:103-110 | creating the empty record leaves nothing for `exit` to kill |
| `CorePlugin.AfterBuildIdle` | core/index.ts:118-124 | outside watch mode or while the lock is held: no lock taken, no kill, no spawn, record unchanged |
| `CorePlugin.AfterBuildRule` | core/index.ts:118-167 | `onAfterBuild` as a rule: the lock is held after the hook exactly when another build held it before, so the `finally` releases it on every path |
| `CorePlugin.RestartRule` | core/index.ts:127-163 | the `try` body: a skipped first compile changes nothing; at most one `<pm> "electron <main>"` spawn, and only with a detected manager and a `main`; a rejection spawns nothing and keeps the record; the record changes only to the truthy spawned pid, which reads back |
| `CorePlugin.InitRecordRule` | core/index.ts:104-110 | creating the plugin changes only an absent record, leaves it absent only when the write fails, and never changes the pid `exit` would kill |
| `CorePlugin.AfterBuildSkipsFirstCompile` | core/index.ts:128-129 | the first compile of a target other than `electron-main` kills and spawns nothing and keeps the record |
| `CorePlugin.AfterBuildKillFailure` | core/index.ts:131 | a failed `taskkill` rejects before any spawn, with nothing changed |
| `CorePlugin.AfterBuildMissingLaunchInfo` | core/index.ts:133-143 | no manager or no `main`: the previous app is already killed, nothing is spawned, the record is kept, and the hook rejects with the matching error |
| `CorePlugin.AfterBuildRestarts` | core/index.ts:145-162 | otherwise kill first, then exactly one `<pm> "electron <main>"` spawn; the record holds the new pid if it is truthy and is unchanged otherwise |
| `CorePlugin.AfterBuildAtMostOneSpawn` | core/index.ts:118-167 | one hook makes at most one `spawn` call, and the record changes only to the truthy pid it returned |
| `CorePlugin.AfterBuildKeepsSingleInstance` | core/index.ts:118-167 | with a working probe and truthy pids, at most the recorded app stays alive |
| `CorePlugin.QueryFailureLeavesTwoApps` | core/index.ts:33-36 | a failed probe query makes the hook spawn a second app next to the one still running |
| `CorePlugin.Plugin.constructor` | core/index.ts:102-110 | the plugin creates an absent `.pid` file empty; a failed write is caught |
| `CorePlugin.Plugin.Release` | core/index.ts:165 | `release()` frees the lock only if this instance holds it |
| `CorePlugin.Plugin.Restart` | core/index.ts:127-163 | the `try` block follows `RestartRule` |
| `CorePlugin.Plugin.OnAfterBuild` | core/index.ts:118-167 | the hook follows `AfterBuildRule`, and this instance holds no lock afterwards |
| `CorePlugin.Plugin.OnCloseBuild` | core/index.ts:169-171 | `release()` between hooks changes nothing |
| `CorePlugin.Plugin.OnExit` | core/index.ts:173-176 | only `exit` runs: no spawn, record kept, lock unchanged |
| `SrcPlugin.BeforeBuildRule` | src/index.ts:82-115 | `onBeforeBuild` as a rule: at most one `<pm> run <script>` spawn, only in watch mode and only when the hook resolves; the record changes only to the truthy spawned pid, which reads back |
| `SrcPlugin.BeforeBuildSkipsFirstCompile` | src/index.ts:82-84 | the first compile of a target other than `electron-main` returns before anything else |
| `SrcPlugin.BeforeBuildStopsWithoutWatch` | src/index.ts:86-94 | outside watch mode only `exit` runs: the stored pid is killed if alive, nothing is spawned, the record is kept |
| `SrcPlugin.BeforeBuildKillFailure` | src/index.ts:86 | a failed `taskkill` rejects before any spawn with nothing changed |
| `SrcPlugin.BeforeBuildRestarts` | src/index.ts:96-114 | in watch mode, kill first, then exactly one `<pm> run <script>` spawn; the record is overwritten only with a truthy returned pid |
| `SrcPlugin.BeforeBuildKeepsSingleInstance` | src/index.ts:82-115 | with a working probe and truthy pids, at most the recorded app stays alive |
| `SrcPlugin.Plugin.constructor` | src/index.ts:51-53 | the plugin keeps the `script` option |
| `SrcPlugin.Plugin.ModifyRsbuildConfig` | src/index.ts:80 | only `exit` runs: no spawn, record kept |
| `SrcPlugin.Plugin.OnBeforeBuild` | src/index.ts:82-115 | the hook follows `BeforeBuildRule` |
| `SrcPlugin.Plugin.OnExit` | src/index.ts:117 | only `exit` runs: no spawn, record kept |

## Left out

- Windows command execution: the `tasklist`/`taskkill` command lines, the `stdout.includes(pid)` test on the filtered `tasklist` output, `/T`'s killing of the process tree, and `spawn`'s `shell`/`stdio`/`cwd` options (`cwd` is the project root in `core/index.ts` and the current directory in `src/index.ts`; a `Launch` records no working directory). Only their outcomes are modelled, as parameters.
- The `proper-lockfile` library: stale-lock detection, the lock directory, `check` or `lock` rejecting, and the rejection of calling an already-used `release` again in `onCloseBuild`/`onExit`. Only a held/not-held flag is modelled.
- Concurrency: each hook is one atomic step, so the window between `lockfile.check` and `lockfile.lock`, and hooks overlapping in time, are not modelled. A lock held by another build is the `locked` value a hook starts from.
- `readPackageSync`: modelled as an optional `main` string; a missing or unreadable `package.json` is not modelled.
- The environment and the Rsbuild API: `npm_execpath`, the working directory, `__dirname`, `getRsbuildConfig` and hook registration are parameters. An absent `tools.rspack`, which makes `rspack.target` throw on a first compile, is not modelled; an absent `target` is.
- Paths: a directory is a volume and a list of names, so `path.resolve` normalisation (`.`, `..`, symbolic links) and the `.pid` file locations (`node_modules/.pid`, `__dirname/.pid`) are not modelled.
- `onExit` (core/index.ts:174, src/index.ts:117): `exit()` is not awaited there, so the real process may end before `taskkill` runs; the model lets that `exit` run to completion.
- Console logging.
- PidRecord.Number: does not model JavaScript's full `Number()` (whitespace trimming, signs, hex, exponents, fractions); such texts read as `NaN` here.
- Failures and timing of the file writes in `savePid`: core/index.ts calls `savePid` without `await` at :158, so the write may finish after the lock is released in the `finally` (:164-166) and a failed write is an unhandled rejection the `catch` never sees; src/index.ts's `writeFileSync` throws inside the caught `try`. Here a save always succeeds and completes before the lock is released.
- Behaviour neither file implements: probe or kill timeouts, clearing the record after a failed spawn, stale-lock recovery.
- The playground configurations and the Electron app: configuration and UI only; their targets `electron-main` and `electron-preload` appear only as `target` values.
