/** Which package manager launched the build, read from `npm_execpath`, in the
    two variants of `detectPackageManager`.

    The source writes the suffixes as '\pnpm.cjs' and '\npm-cli.js'. JavaScript
    drops the backslash of the unknown escape `\p`, and reads `\n` as a newline,
    so the tests are for the suffix "pnpm.cjs" and for a newline followed by
    "pm-cli.js". */
module PackageManager {
  import opened Wrappers
  import opened Errors
  import opened Text

  datatype Manager = Npm | Pnpm | Yarn

  const PnpmSuffix: string := "pnpm.cjs"
  const NpmSuffix: string := "\npm-cli.js"

  /** The lock file whose presence marks the project root for each manager. */
  function LockFileName(m: Manager): (name: string)
    ensures name in {"package-lock.json", "pnpm-lock.yaml", "yarn.lock"}
  {
    match m
    case Npm => "package-lock.json"
    case Pnpm => "pnpm-lock.yaml"
    case Yarn => "yarn.lock"
  }

  /** The command the hooks of core/index.ts spawn for each manager. */
  function ManagerName(m: Manager): string {
    match m
    case Npm => "npm"
    case Pnpm => "pnpm"
    case Yarn => "yarn"
  }

  /** `detectPackageManager` of core/index.ts: the patterns are tried in a fixed
      order, and an unset variable or a path matching none of them throws. */
  function DetectCore(execPath: Option<string>): (r: Result<Manager, Error>)
    ensures execPath.None? ==> r == Failure(NoPackageManager)
    ensures r == Success(Yarn) <==> execPath.Some? && Contains(execPath.value, "yarn")
    ensures r == Success(Pnpm) <==>
      execPath.Some? && !Contains(execPath.value, "yarn") && EndsWith(execPath.value, PnpmSuffix)
    ensures r == Success(Npm) <==>
      execPath.Some? && !Contains(execPath.value, "yarn") && !EndsWith(execPath.value, PnpmSuffix)
      && EndsWith(execPath.value, NpmSuffix)
    ensures r.Failure? ==> r.error == NoPackageManager
    ensures r.Failure? <==>
      (execPath.None? ||
       (!Contains(execPath.value, "yarn") && !EndsWith(execPath.value, PnpmSuffix) && !EndsWith(execPath.value, NpmSuffix)))
  {
    match execPath
    case None => Failure(NoPackageManager)
    case Some(path) =>
      if Contains(path, "yarn") then Success(Yarn)
      else if EndsWith(path, PnpmSuffix) then Success(Pnpm)
      else if EndsWith(path, NpmSuffix) then Success(Npm)
      else Failure(NoPackageManager)
  }

  /** The command src/index.ts spawns for a manager core/index.ts detects. */
  function SrcCommand(m: Manager): string {
    match m
    case Npm => "npm"
    case Pnpm => "pnpm -w"
    case Yarn => "yarn"
  }

  /** `detectPackageManager` of src/index.ts: total, falling back to "npm". */
  function DetectSrc(execPath: Option<string>): (command: string)
    ensures command in {"yarn", "pnpm -w", "npm"}
    ensures command != ""
    ensures command == "yarn" <==> execPath.Some? && Contains(execPath.value, "yarn")
  {
    match execPath
    case None => "npm"
    case Some(path) =>
      if Contains(path, "yarn") then "yarn"
      else if EndsWith(path, PnpmSuffix) then "pnpm -w"
      else if EndsWith(path, NpmSuffix) then "npm"
      else "npm"
  }

  /** The two variants agree wherever core/index.ts detects a manager, and
      src/index.ts answers "npm" exactly where core/index.ts throws or detects npm. */
  lemma DetectVariantsAgree(execPath: Option<string>)
    ensures DetectCore(execPath).Success? ==> DetectSrc(execPath) == SrcCommand(DetectCore(execPath).value)
    ensures DetectSrc(execPath) == "npm" <==> DetectCore(execPath) in {Success(Npm), Failure(NoPackageManager)}
  {
  }

  /** A Windows npm path ends with a backslash and "npm-cli.js", not with a
      newline, so core/index.ts throws for it while src/index.ts answers "npm". */
  lemma WindowsNpmPathUndetected()
    ensures DetectCore(Some("C:\\npm\\bin\\npm-cli.js")) == Failure(NoPackageManager)
    ensures DetectSrc(Some("C:\\npm\\bin\\npm-cli.js")) == "npm"
  {
    var path := "C:\\npm\\bin\\npm-cli.js";
    NotContainsWithoutFirst(path, "yarn");
    assert path[|path| - |NpmSuffix|..][0] == 'n' != NpmSuffix[0];
    assert !EndsWith(path, NpmSuffix);
    assert path[|path| - |PnpmSuffix|..][0] == 'm' != PnpmSuffix[0];
    assert !EndsWith(path, PnpmSuffix);
  }

  /** '\pnpm.cjs' loses its backslash, so a POSIX pnpm path, with a slash before
      "pnpm.cjs", is detected as pnpm by both variants. */
  lemma PosixPnpmPathDetected()
    ensures DetectCore(Some("/pnpm/bin/pnpm.cjs")) == Success(Pnpm)
    ensures DetectSrc(Some("/pnpm/bin/pnpm.cjs")) == "pnpm -w"
  {
    NotContainsWithoutFirst("/pnpm/bin/pnpm.cjs", "yarn");
  }
}
