/** Shared vocabulary: optional values, the ways one system call can end, and
    the errors of internal/config. */
module Basics {

  datatype Option<+T> = None | Some(value: T)

  function Get<K, V>(m: map<K, V>, k: K): Option<V> {
    if k in m then Some(m[k]) else None
  }

  /** How one primitive step ends. `Killed` means the process is gone: nothing
      that the source would do next, deferred calls included, happens. */
  datatype Status = Done | Failed | Killed

  datatype Error =
    | Dead                // the process was killed inside the call
    | IO                  // a system call failed
    | Conflict            // ErrConflict
    | RecoveryRequired    // pending.json exists
    | Invalid             // an invalid path, ID, reason or image
    | TooLarge            // MaxFileSize or MaxTotalSize exceeded
    | Broken              // a snapshot that does not load
    | Pinned              // deleting the managed baseline
    | NoController        // a nil Controller
    | Cancelled           // the context was cancelled before the transaction
    | Runtime             // Controller.Apply or Controller.Healthy failed
    | JournalSync         // pending.json was removed, syncing the directory failed
    | RolledBack          // "apply failed; previous configuration restored"
    | RollbackFailed      // "rollback failed; recovery remains pending"
    | RollbackUnsynced    // the same message, when only the last directory sync failed
    | CommitFailed        // "configuration applied but commit journal failed", before the removal
    | CommitUnsynced      // the same message, when only the last directory sync failed

  datatype Result<+T> = Ok(value: T) | Err(error: Error)

  /** The error a caller sees when a primitive step did not succeed. */
  function Why(s: Status): (e: Error)
    requires s != Done
    ensures e == Dead <==> s == Killed
  {
    if s == Killed then Dead else IO
  }
}
