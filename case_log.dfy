/** The audit snapshot handed to the logger (`CaseLog`). */
module CaseLogs {
  import opened Wrappers
  import opened SystemClock

  /**
   * The six audit fields of a case, and nothing else: no creation date and no
   * reference back to the case. `finalizer`, `dateFinalized` and `finalizeMessage`
   * are `None` where the C# record holds `null`.
   */
  datatype CaseLog = CaseLog(
    isFinalized: bool,
    finalizer: Option<string>,
    dateFinalized: Option<Instant>,
    description: string,
    isEscalated: bool,
    finalizeMessage: Option<string>)
}
