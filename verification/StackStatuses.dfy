/**
 CloudFormation stack statuses, and the sets the workers sort them into.  The template tests
 and the tenant provisioning keep separate sets, which differ.
 */
module StackStatuses {
  datatype StackStatus =
    | NoStatus                    // no stack linked yet, or the describe call failed
    | StackDeleted                // written by the probes when the stack does not exist
    | CreateInProgress | CreateComplete | CreateFailed
    | RollbackInProgress | RollbackComplete | RollbackFailed
    | DeleteInProgress | DeleteComplete | DeleteFailed
    | UpdateInProgress | UpdateCompleteCleanupInProgress | UpdateComplete | UpdateFailed
    | UpdateRollbackInProgress | UpdateRollbackCompleteCleanupInProgress
    | UpdateRollbackComplete | UpdateRollbackFailed
    | ReviewInProgress
    | ImportInProgress | ImportComplete
    | ImportRollbackInProgress | ImportRollbackComplete | ImportRollbackFailed

  predicate IsActive(s: StackStatus) {
    s.CreateComplete? || s.UpdateComplete?
  }

  predicate IsInProgress(s: StackStatus) {
    || s.CreateInProgress? || s.UpdateInProgress? || s.UpdateCompleteCleanupInProgress?
    || s.UpdateRollbackInProgress? || s.UpdateRollbackCompleteCleanupInProgress? || s.RollbackInProgress?
  }

  /** The text of the status contains ROLLBACK. */
  predicate MentionsRollback(s: StackStatus) {
    || s.RollbackInProgress? || s.RollbackComplete? || s.RollbackFailed?
    || s.UpdateRollbackInProgress? || s.UpdateRollbackCompleteCleanupInProgress?
    || s.UpdateRollbackComplete? || s.UpdateRollbackFailed?
    || s.ImportRollbackInProgress? || s.ImportRollbackComplete? || s.ImportRollbackFailed?
  }

  /** The text of the status contains DELETE. */
  predicate MentionsDelete(s: StackStatus) {
    s.StackDeleted? || s.DeleteInProgress? || s.DeleteComplete? || s.DeleteFailed?
  }

  /** What a template test treats as a stack that did not survive its creation. */
  predicate IsRollbackOrDelete(s: StackStatus) {
    MentionsRollback(s) || MentionsDelete(s) || s.CreateFailed?
  }

  /** Failed, for a template test. */
  predicate IsFailedTest(s: StackStatus) {
    || s.CreateFailed? || s.RollbackComplete? || s.RollbackFailed? || s.DeleteFailed?
    || s.UpdateRollbackComplete? || s.UpdateRollbackFailed?
  }

  /** Removed, for tenant provisioning. */
  predicate IsDeleted(s: StackStatus) {
    s.DeleteInProgress? || s.DeleteComplete? || s.StackDeleted?
  }

  /** Failed, for tenant provisioning. */
  predicate IsFailedDeploy(s: StackStatus) {
    IsFailedTest(s) || IsDeleted(s)
  }

  // ---------- The statuses as they are written ----------

  datatype Word =
    | STACK | DELETED | CREATE | IN | PROGRESS | COMPLETE | FAILED | ROLLBACK | DELETE | UPDATE | CLEANUP | REVIEW | IMPORT

  /** The words of a status, which are written with an underscore between them; none of them contains another but DELETED. */
  function Words(s: StackStatus): seq<Word> {
    match s
    case NoStatus => []
    case StackDeleted => [STACK, DELETED]
    case CreateInProgress => [CREATE, IN, PROGRESS]
    case CreateComplete => [CREATE, COMPLETE]
    case CreateFailed => [CREATE, FAILED]
    case RollbackInProgress => [ROLLBACK, IN, PROGRESS]
    case RollbackComplete => [ROLLBACK, COMPLETE]
    case RollbackFailed => [ROLLBACK, FAILED]
    case DeleteInProgress => [DELETE, IN, PROGRESS]
    case DeleteComplete => [DELETE, COMPLETE]
    case DeleteFailed => [DELETE, FAILED]
    case UpdateInProgress => [UPDATE, IN, PROGRESS]
    case UpdateCompleteCleanupInProgress => [UPDATE, COMPLETE, CLEANUP, IN, PROGRESS]
    case UpdateComplete => [UPDATE, COMPLETE]
    case UpdateFailed => [UPDATE, FAILED]
    case UpdateRollbackInProgress => [UPDATE, ROLLBACK, IN, PROGRESS]
    case UpdateRollbackCompleteCleanupInProgress => [UPDATE, ROLLBACK, COMPLETE, CLEANUP, IN, PROGRESS]
    case UpdateRollbackComplete => [UPDATE, ROLLBACK, COMPLETE]
    case UpdateRollbackFailed => [UPDATE, ROLLBACK, FAILED]
    case ReviewInProgress => [REVIEW, IN, PROGRESS]
    case ImportInProgress => [IMPORT, IN, PROGRESS]
    case ImportComplete => [IMPORT, COMPLETE]
    case ImportRollbackInProgress => [IMPORT, ROLLBACK, IN, PROGRESS]
    case ImportRollbackComplete => [IMPORT, ROLLBACK, COMPLETE]
    case ImportRollbackFailed => [IMPORT, ROLLBACK, FAILED]
  }

  /** The k-th word from the end is w. */
  predicate FromEnd(s: StackStatus, k: nat, w: Word) {
    k < |Words(s)| && Words(s)[|Words(s)| - 1 - k] == w
  }

  predicate StartsWith(s: StackStatus, w: Word) {
    Words(s) != [] && Words(s)[0] == w
  }

  // What the sets are, by the words of a status.

  lemma ActiveByWords(s: StackStatus)
    ensures IsActive(s) <==> |Words(s)| == 2 && FromEnd(s, 0, COMPLETE) && (StartsWith(s, CREATE) || StartsWith(s, UPDATE))
  {
  }

  lemma InProgressByWords(s: StackStatus)
    ensures IsInProgress(s) <==>
              FromEnd(s, 0, PROGRESS) && (StartsWith(s, CREATE) || StartsWith(s, UPDATE) || StartsWith(s, ROLLBACK))
  {
  }

  lemma RollbackByWords(s: StackStatus)
    ensures MentionsRollback(s) <==> ROLLBACK in Words(s)
  {
  }

  lemma DeleteByWords(s: StackStatus)
    ensures MentionsDelete(s) <==> DELETE in Words(s) || DELETED in Words(s)
    ensures IsDeleted(s) <==> MentionsDelete(s) && !FromEnd(s, 0, FAILED)
  {
  }

  lemma GoneByWords(s: StackStatus)
    ensures IsRollbackOrDelete(s) <==>
              MentionsRollback(s) || MentionsDelete(s) || (StartsWith(s, CREATE) && FromEnd(s, 0, FAILED))
  {
  }

  lemma FailedByWords(s: StackStatus)
    ensures IsFailedTest(s) <==>
              && (FromEnd(s, 0, FAILED) || (FromEnd(s, 0, COMPLETE) && FromEnd(s, 1, ROLLBACK)))
              && !StartsWith(s, IMPORT) && !(|Words(s)| == 2 && StartsWith(s, UPDATE))
    ensures IsFailedDeploy(s) <==> IsFailedTest(s) || IsDeleted(s)
  {
  }
}
