/** The errors the plugin's hooks can throw or reject with, and the settled
    state of a hook's promise. */
module Errors {

  datatype Error =
    | NoPackageManager              // 'No package manager detected'
    | LockFileNotFound(lockFile: string)  // `No find ${lockFile}`
    | KillFailed(pid: nat)          // the rejection of a failed `taskkill`
    | NoMainField                   // 'No main field in package.json'

  /** How a hook's promise settles: resolved, or rejected with an error. */
  datatype Outcome = Done | Rejected(error: Error)
}
