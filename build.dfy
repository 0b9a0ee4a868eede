/** What the hooks receive from Rsbuild: the compile flags of the event and the
    `tools.rspack.target` of the build's configuration. */
module Build {
  import opened Wrappers

  /** The rspack target of the long-running Electron main process. */
  const MainTarget: string := "electron-main"

  datatype BuildEvent = BuildEvent(isFirstCompile: bool, isWatch: bool)

  /** `isFirstCompile && rspack.target !== 'electron-main'`: the first compile of
      any other target (the preload script, say) leaves the app alone. An unset
      `target` is not 'electron-main'. */
  predicate SkipsFirstCompile(isFirstCompile: bool, target: Option<string>)
    ensures SkipsFirstCompile(isFirstCompile, target) ==> isFirstCompile && target != Some(MainTarget)
    ensures isFirstCompile && target.None? ==> SkipsFirstCompile(isFirstCompile, target)
    ensures isFirstCompile && target.Some? && target.value != MainTarget ==> SkipsFirstCompile(isFirstCompile, target)
  {
    isFirstCompile && target != Some(MainTarget)
  }
}
