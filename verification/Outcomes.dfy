/** How backups, repository commands and retention end (apps/resticpal-service/src/executor.rs). */
module Outcomes {

  datatype OutcomeKind = Succeeded | SucceededWithWarnings | Failed(code: string) | Cancelled

  predicate IsSuccess(kind: OutcomeKind) {
    kind.Succeeded? || kind.SucceededWithWarnings?
  }

  /** One validation, initialization, forget or prune command. */
  datatype ExecutionResult = ExecutionSucceeded | ExecutionFailed(code: string) | ExecutionCancelled

  datatype RetentionResult = RetentionSucceeded(pruned: bool) | RetentionFailed(code: string) | RetentionCancelled

  /** A command's own code is kept; the generic one is replaced by the step that failed. */
  function RetentionFailure(code: string, generic: string): RetentionResult {
    RetentionFailed(if code == "repository_operation_failed" then generic else code)
  }
}
