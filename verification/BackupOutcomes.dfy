/** From the two output streams of a finished restic process to the stored run and back to the
    facts the user interface shows (apps/resticpal-service/src/executor.rs `finish_outcome`,
    `with_warning` and the sequencing of `retention`; runtime/lifecycle.rs `finish_retention` and
    `finish_backup_at`; apps/ResticPal.UI/Services/BackupWarningPresentation.cs). */
module BackupOutcomes {
  import opened Common
  import opened FailureDetails
  import opened Outcomes
  import opened OutputReader
  import History

  datatype BackupOutcome = BackupOutcome(
    kind: OutcomeKind,
    summary: Option<Summary>,
    warningCode: Option<string>,
    details: Details)

  function FailedWith(code: string): BackupOutcome {
    BackupOutcome(Failed(code), None, None, NO_DETAILS)
  }

  function Warnings(summary: Summary, code: string, details: Details): BackupOutcome {
    BackupOutcome(SucceededWithWarnings, Some(summary), Some(code), details)
  }

  /** The last resort code of an exit status: `restic_exit_` and the decimal number. */
  function ExitCode(code: int): string {
    "restic_exit_" + if code < 0 then "-" + Decimal(-code) else Decimal(code)
  }

  const FALLBACK_CLEANUP := "restic_vss_fallback_and_cleanup_failed"
  const FALLBACK_PARTIAL_CLEANUP := FALLBACK + LONG_TAIL
  const FALLBACK_PARTIAL := "restic_vss_fallback_and_partial_source"
  const PARTIAL_CLEANUP := "restic_partial_source_and_vss_cleanup_failed"
  const CLEANUP := "restic_vss_cleanup_failed"
  const PARTIAL := "restic_partial_source"
  const FALLBACK := "restic_vss_fallback"
  const LONG_TAIL := "_partial_source_and_cleanup_failed"

  /** `exit` is `None` for a terminated process; `classified` is the verdict on the captured
      standard error. */
  function FinishOutcome(exit: Option<int>, stdout: Result<Parsed, ReadError>, stderr: Result<Parsed, ReadError>,
                         classified: Option<string>, knownVssFallback: bool): BackupOutcome
  {
    if exit == Some(130) then BackupOutcome(Cancelled, None, None, NO_DETAILS)
    else if stdout.Err? then FailedWith("restic_output_invalid")
    else
      var parsed := stdout.value;
      if parsed.summary.None? then
        match exit
        case Some(0) => FailedWith(if parsed.invalidMessage then "restic_output_invalid" else "restic_summary_missing")
        case Some(code) => FailedWith(if classified.Some? then classified.value else ExitCode(code))
        case None => FailedWith("restic_terminated")
      else
        var summary := parsed.summary.value;
        var details := if stderr.Ok? then Merge(parsed.details, stderr.value.details) else parsed.details;
        var fallback := parsed.vssFallback || knownVssFallback || (stderr.Ok? && stderr.value.vssFallback);
        var cleanup := parsed.vssCleanupFailed || (stderr.Ok? && stderr.value.vssCleanupFailed);
        match exit
        case Some(0) =>
          if fallback && cleanup then Warnings(summary, FALLBACK_CLEANUP, details)
          else if fallback then Warnings(summary, FALLBACK, details)
          else if cleanup then Warnings(summary, CLEANUP, details)
          else BackupOutcome(Succeeded, Some(summary), None, NO_DETAILS)
        case Some(3) =>
          if fallback && cleanup then
            Warnings(summary, FALLBACK_PARTIAL_CLEANUP, details)
          else if fallback then Warnings(summary, FALLBACK_PARTIAL, details)
          else if cleanup then Warnings(summary, PARTIAL_CLEANUP, details)
          else Warnings(summary, PARTIAL, details)
        case Some(code) => FailedWith(if classified.Some? then classified.value else ExitCode(code))
        case None => FailedWith("restic_terminated")
  }

  /** A later warning never hides the one that explains the backup data. */
  function WithWarning(outcome: BackupOutcome, code: string): BackupOutcome {
    if IsSuccess(outcome.kind) then
      outcome.(kind := SucceededWithWarnings,
               warningCode := if outcome.warningCode.None? then Some(code) else outcome.warningCode)
    else outcome
  }

  // ---------------------------------------------------------------- retention

  datatype Operation = Forget | Prune

  /** Every code with which running a retention command can fail. */
  const EXECUTION_CODES: set<string> := {
    "credential_unavailable", "wake_lock_unavailable", "process_isolation_failed", "restic_start_failed",
    "restic_output_unavailable", "restic_termination_failed", "repository_operation_timed_out", "restic_wait_failed",
    "restic_vss_unavailable", "restic_permission_denied", "restic_repository_locked", "restic_authentication_failed",
    "restic_repository_unreachable", "restic_source_unavailable", "repository_operation_failed"}

  predicate KnownResult(r: ExecutionResult) {
    r.ExecutionFailed? ==> r.code in EXECUTION_CODES
  }

  /** Every warning code that retention can leave behind. */
  const RETENTION_CODES: set<string> :=
    (EXECUTION_CODES - {"repository_operation_failed"}) +
    {"retention_forbidden", "retention_forget_failed", "retention_prune_failed", "retention_cancelled",
     "retention_state_save_failed"}

  /** Forget, then prune when due. `allowed` says whether the configuration's mode permits the two
      operations; `executed` lists the commands that were run. */
  method Retention(allowed: bool, pruneDue: bool, forget: ExecutionResult, prune: ExecutionResult)
    returns (result: RetentionResult, executed: seq<Operation>)
    requires KnownResult(forget) && KnownResult(prune)
    ensures !allowed ==> executed == [] && result == RetentionFailed("retention_forbidden")
    ensures Prune in executed <==> allowed && pruneDue && forget.ExecutionSucceeded?
    ensures Prune in executed ==> executed == [Forget, Prune]
    ensures result == RetentionSucceeded(true) <==> Prune in executed && prune.ExecutionSucceeded?
    ensures result == RetentionSucceeded(false) <==> allowed && !pruneDue && forget.ExecutionSucceeded?
    ensures result.RetentionFailed? ==> result.code in RETENTION_CODES
  {
    executed := [];
    if !allowed {
      return RetentionFailed("retention_forbidden"), executed;
    }
    executed := [Forget];
    match forget {
      case ExecutionSucceeded =>
      case ExecutionCancelled => return RetentionCancelled, executed;
      case ExecutionFailed(code) => return RetentionFailure(code, "retention_forget_failed"), executed;
    }
    if !pruneDue {
      return RetentionSucceeded(false), executed;
    }
    executed := [Forget, Prune];
    match prune {
      case ExecutionSucceeded => result := RetentionSucceeded(true);
      case ExecutionCancelled => result := RetentionCancelled;
      case ExecutionFailed(code) => result := RetentionFailure(code, "retention_prune_failed");
    }
  }

  /** The warning a retention result leaves on a successful backup. */
  function RetentionWarning(result: RetentionResult, saveFailed: bool): Option<string> {
    match result
    case RetentionFailed(code) => Some(code)
    case RetentionCancelled => Some("retention_cancelled")
    case RetentionSucceeded(_) => if saveFailed then Some("retention_state_save_failed") else None
  }

  function AfterRetention(outcome: BackupOutcome, result: RetentionResult, saveFailed: bool): BackupOutcome {
    var warning := RetentionWarning(result, saveFailed);
    if warning.Some? then WithWarning(outcome, warning.value) else outcome
  }

  // ---------------------------------------------------------------- the stored run

  function CompletedRunOf(outcome: BackupOutcome, startedAt: int, now: int): History.CompletedRun {
    var summary := outcome.summary;
    History.CompletedRun(
      startedAt, now,
      match outcome.kind
        case Succeeded => History.Succeeded
        case SucceededWithWarnings => History.SucceededWithWarnings
        case Failed(_) => History.Failed
        case Cancelled => History.Cancelled,
      match outcome.kind
        case SucceededWithWarnings => outcome.warningCode
        case Failed(code) => Some(code)
        case _ => None,
      if summary.Some? then Some(summary.value.files) else None,
      if summary.Some? then Some(summary.value.bytes) else None,
      if summary.Some? then Some(summary.value.added) else None,
      if summary.Some? then summary.value.snapshot else None,
      outcome.details)
  }

  // ---------------------------------------------------------------- the reader's predicates

  predicate HasVssFallback(code: Option<string>) {
    code.Some? && code.value in {
      FALLBACK, FALLBACK_CLEANUP, FALLBACK_PARTIAL,
      FALLBACK_PARTIAL_CLEANUP}
  }

  predicate HasPartialSource(code: Option<string>) {
    code.Some? && code.value in {
      PARTIAL, PARTIAL_CLEANUP,
      FALLBACK_PARTIAL, FALLBACK_PARTIAL_CLEANUP}
  }

  predicate HasVssCleanupFailure(code: Option<string>) {
    code.Some? && code.value in {
      CLEANUP, FALLBACK_CLEANUP,
      PARTIAL_CLEANUP, FALLBACK_PARTIAL_CLEANUP}
  }

  // ---------------------------------------------------------------- round trip

  /** A mark that the seven data-warning codes carry and no retention code does. */
  predicate Marked(code: string) {
    |code| > 17 && (code[17] == 'c' || code[17] == 'u' || code[17] == 'p')
  }

  lemma DataWarningsAreMarked(code: string)
    requires HasVssFallback(Some(code)) || HasPartialSource(Some(code)) || HasVssCleanupFailure(Some(code))
    ensures Marked(code)
  {
    assert FALLBACK[17] == FALLBACK_CLEANUP[17] == FALLBACK_PARTIAL[17] == FALLBACK_PARTIAL_CLEANUP[17] == 'c';
    assert PARTIAL[17] == PARTIAL_CLEANUP[17] == 'u' && CLEANUP[17] == 'p';
  }

  lemma RetentionCodesAreNotMarked(code: string)
    requires code in RETENTION_CODES
    ensures !Marked(code)
  {
  }

  lemma FallbackIsIdentifier()
    ensures History.IsIdentifier(FALLBACK)
  {
  }

  lemma PartialAndCleanupAreIdentifiers()
    ensures History.IsIdentifier(PARTIAL) && History.IsIdentifier(CLEANUP)
  {
  }

  lemma FallbackCleanupIsIdentifier()
    ensures History.IsIdentifier(FALLBACK_CLEANUP)
  {
  }

  lemma FallbackPartialIsIdentifier()
    ensures History.IsIdentifier(FALLBACK_PARTIAL)
  {
  }

  lemma PartialCleanupIsIdentifier()
    ensures History.IsIdentifier(PARTIAL_CLEANUP)
  {
  }

  lemma LongTailIsIdentifier()
    ensures History.IsIdentifier(LONG_TAIL)
  {
  }

  lemma LongestCodeIsIdentifier()
    ensures History.IsIdentifier(FALLBACK_PARTIAL_CLEANUP)
  {
    FallbackIsIdentifier();
    LongTailIsIdentifier();
    IdentifierConcat(FALLBACK, LONG_TAIL);
  }

  lemma IdentifierConcat(a: string, b: string)
    requires History.IsIdentifier(a) && History.IsIdentifier(b) && |a| + |b| <= History.MAX_IDENTIFIER_BYTES
    ensures History.IsIdentifier(a + b)
  {
  }

  predicate Fallback(stdout: Parsed, stderr: Result<Parsed, ReadError>, known: bool) {
    stdout.vssFallback || known || (stderr.Ok? && stderr.value.vssFallback)
  }

  predicate CleanupFailed(stdout: Parsed, stderr: Result<Parsed, ReadError>) {
    stdout.vssCleanupFailed || (stderr.Ok? && stderr.value.vssCleanupFailed)
  }

  /** What the process left behind, for the two exit statuses that keep a snapshot. */
  lemma SnapshotOutcome(exit: int, stdout: Parsed, stderr: Result<Parsed, ReadError>, classified: Option<string>,
                        known: bool)
    requires exit == 0 || exit == 3
    requires stdout.summary.Some?
    ensures
      var outcome := FinishOutcome(Some(exit), Ok(stdout), stderr, classified, known);
      var fallback, cleanup := Fallback(stdout, stderr, known), CleanupFailed(stdout, stderr);
      var code := outcome.warningCode;
      && IsSuccess(outcome.kind) && outcome.summary == stdout.summary
      && (code.Some? <==> outcome.kind.SucceededWithWarnings?)
      && (code.None? <==> exit == 0 && !fallback && !cleanup)
      && (HasVssFallback(code) <==> fallback)
      && (HasPartialSource(code) <==> exit == 3)
      && (HasVssCleanupFailure(code) <==> cleanup)
      && History.SanitizeIdentifier(code) == code
      && outcome.details ==
         (if code.None? then NO_DETAILS
          else if stderr.Ok? then Merge(stdout.details, stderr.value.details) else stdout.details)
  {
    FallbackIsIdentifier();
    PartialAndCleanupAreIdentifiers();
    FallbackCleanupIsIdentifier();
    FallbackPartialIsIdentifier();
    PartialCleanupIsIdentifier();
    LongestCodeIsIdentifier();
    CodesDiffer();
  }

  lemma CodesDiffer()
    ensures |FALLBACK| == 19 && |PARTIAL| == 21 && |CLEANUP| == 25 && |PARTIAL_CLEANUP| == 44
    ensures |FALLBACK_PARTIAL_CLEANUP| == 53 && |FALLBACK_CLEANUP| == |FALLBACK_PARTIAL| == 38
    ensures FALLBACK_CLEANUP[24] == 'c' && FALLBACK_PARTIAL[24] == 'p'
  {
  }

  predicate KnownRetention(result: RetentionResult) {
    result.RetentionFailed? ==> result.code in RETENTION_CODES
  }

  /** Whatever retention adds, the stored code still tells the reader exactly which of the three
      facts about the backup data hold. */
  lemma RetentionKeepsTheFacts(outcome: BackupOutcome, result: RetentionResult, saveFailed: bool)
    requires IsSuccess(outcome.kind) && (outcome.warningCode.Some? <==> outcome.kind.SucceededWithWarnings?)
    requires History.SanitizeIdentifier(outcome.warningCode) == outcome.warningCode && KnownRetention(result)
    ensures
      var before := outcome.warningCode;
      var run := CompletedRunOf(AfterRetention(outcome, result, saveFailed), 0, 0);
      var stored := History.SanitizeIdentifier(run.errorCode);
      && (HasVssFallback(stored) <==> HasVssFallback(before))
      && (HasPartialSource(stored) <==> HasPartialSource(before))
      && (HasVssCleanupFailure(stored) <==> HasVssCleanupFailure(before))
      && run.details == outcome.details
      && run.outcome == if before.None? && RetentionWarning(result, saveFailed).None? then History.Succeeded
                        else History.SucceededWithWarnings
  {
    var warning := RetentionWarning(result, saveFailed);
    if outcome.warningCode.None? && warning.Some? {
      var code := warning.value;
      assert code in RETENTION_CODES;
      RetentionCodesAreNotMarked(code);
      if HasVssFallback(Some(code)) || HasPartialSource(Some(code)) || HasVssCleanupFailure(Some(code)) {
        DataWarningsAreMarked(code);
      }
    }
  }

  /** The whole way: two output streams and a retention result are turned into a stored run, and
      the reader recovers the three facts and, while the run is stored, the very names the merged
      streams listed, with their count clamped to a signed 64-bit total. */
  method StoreAndShow(store: History.BackupHistoryStore, exit: int, stdout: Parsed, stderr: Result<Parsed, ReadError>,
                      classified: Option<string>, known: bool, result: RetentionResult, saveFailed: bool,
                      startedAt: int, now: int)
    returns (record: History.Record, found: Option<Details>)
    requires store.Valid() && (exit == 0 || exit == 3) && stdout.summary.Some? && KnownRetention(result)
    requires Bounded(stdout.details) && (stderr.Ok? ==> Bounded(stderr.value.details))
    modifies store
    ensures store.Valid() && |store.runs| == |old(store.runs)| + 1 && record.row.id == |store.runs|
    ensures HasVssFallback(record.row.errorCode) <==> Fallback(stdout, stderr, known)
    ensures HasPartialSource(record.row.errorCode) <==> exit == 3
    ensures HasVssCleanupFailure(record.row.errorCode) <==> CleanupFailed(stdout, stderr)
    ensures record.row.outcome ==
      if exit == 0 && !Fallback(stdout, stderr, known) && !CleanupFailed(stdout, stderr)
         && RetentionWarning(result, saveFailed).None? then History.Succeeded
      else History.SucceededWithWarnings
    ensures found.Some? <==> record.row.id in History.IdsOf(History.Newest(store.runs, History.MAX_STORED_RUNS))
    ensures found.Some? ==>
      var merged := if exit == 0 && !Fallback(stdout, stderr, known) && !CleanupFailed(stdout, stderr) then NO_DETAILS
                    else if stderr.Ok? then Merge(stdout.details, stderr.value.details) else stdout.details;
      && found.value.items == merged.items
      && found.value.omitted == Min(merged.omitted, I64_MAX - |merged.items|)
      && record.failedItemCount == |found.value.items| + found.value.omitted
  {
    var outcome := FinishOutcome(Some(exit), Ok(stdout), stderr, classified, known);
    SnapshotOutcome(exit, stdout, stderr, classified, known);
    RetentionKeepsTheFacts(outcome, result, saveFailed);
    BoundedMerge(stdout.details, if stderr.Ok? then stderr.value.details else NO_DETAILS);
    var run := CompletedRunOf(AfterRetention(outcome, result, saveFailed), startedAt, now);
    assert run.details == outcome.details;
    History.NormalizeKeepsCollected(run.details);
    record := store.Append(run);
    found := store.ReadFailureDetails(record.row.id);
  }

  lemma BoundedMerge(a: Details, b: Details)
    requires Bounded(a) && Bounded(b)
    ensures Bounded(Merge(a, b)) && Bounded(NO_DETAILS)
  {
    PushAllKeepsFirst(a, b.items);
  }
}
