/** Replacing a file through a synced temporary and a rename. */
module AtomicFile {
  /** A save replaces the file at once, or fails; a failure may come before or after the replacement,
      because the directory is synced last. */
  datatype SaveOutcome = Saved | FailedBefore | FailedAfter

  predicate Replaces(outcome: SaveOutcome) { !outcome.FailedBefore? }
}
