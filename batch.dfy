/**
 * A production batch (Components/Models/Batch.cs): a recipe to be weighed a
 * number of times, its lifecycle status and audit stamps, and the values
 * the pages derive from it.
 */
module Batches {
  import opened Common

  const StatusPending: string := "Pending"
  const StatusInProgress: string := "InProgress"
  const StatusCompleted: string := "Completed"
  const StatusAborted: string := "Aborted"

  /** Times are ticks; the nullable columns are Options. */
  datatype Batch = Batch(
    batchId: string,
    recipeId: string,
    recipeName: string,
    totalRepetitions: int,
    currentRepetition: int,
    status: string,
    plannedStartTime: Option<int>,
    plannedEndTime: Option<int>,
    createdBy: string,
    createdDate: int,
    startedBy: Option<string>,
    startedDate: Option<int>,
    completedDate: Option<int>,
    abortReason: Option<string>,
    abortedBy: Option<string>,
    abortedDate: Option<int>,
    notes: Option<string>)

  /** `new Batch()`: a pending batch at repetition 0 with nothing stamped. */
  function NewBatch(): (b: Batch)
    ensures b.status == StatusPending && b.currentRepetition == 0
    ensures b.startedBy.None? && b.completedDate.None? && b.abortedDate.None?
  {
    Batch("", "", "", 0, 0, StatusPending, None, None, "", 0, None, None, None, None, None, None, None)
  }

  /** Progress in percent; the source computes it in binary floating point. */
  function ProgressPercentage(b: Batch): real {
    if b.totalRepetitions > 0 then (b.currentRepetition as real) / (b.totalRepetitions as real) * 100.0
    else 0.0
  }

  predicate RequiresSupervisorApproval(b: Batch) {
    ProgressPercentage(b) > 40.0
  }

  /** A batch with no repetitions planned shows no progress and never needs approval. */
  lemma NoRepetitionsNoApproval(b: Batch)
    requires b.totalRepetitions <= 0
    ensures ProgressPercentage(b) == 0.0 && !RequiresSupervisorApproval(b)
  {
  }

  /** Approval is needed exactly when more than 40 % of the repetitions are done. */
  lemma ApprovalThreshold(b: Batch)
    requires b.totalRepetitions > 0
    ensures RequiresSupervisorApproval(b) <==> 5 * b.currentRepetition > 2 * b.totalRepetitions
  {
    var c := b.currentRepetition as real;
    var t := b.totalRepetitions as real;
    var q := c / t;
    assert ProgressPercentage(b) == q * 100.0;
    assert q * t == c;
    MulStrict(q, 0.4, t);
    assert RequiresSupervisorApproval(b) <==> q > 0.4;
    assert q > 0.4 <==> c > 0.4 * t;
    assert (5 * b.currentRepetition > 2 * b.totalRepetitions) <==> c > 0.4 * t;
  }

  const LifecycleStatuses: set<string> := {StatusPending, StatusInProgress, StatusCompleted, StatusAborted}

  function StatusBadgeClass(status: string): string {
    if status == StatusPending then "badge-warning"
    else if status == StatusInProgress then "badge-primary"
    else if status == StatusCompleted then "badge-success"
    else if status == StatusAborted then "badge-danger"
    else "badge-secondary"
  }

  /** The four lifecycle states get four different badges; every other string gets the neutral one. */
  lemma StatusBadgeClassSpec(status: string)
    ensures status !in LifecycleStatuses <==> StatusBadgeClass(status) == "badge-secondary"
    ensures forall s, t :: (s in LifecycleStatuses && t in LifecycleStatuses && s != t) ==>
      StatusBadgeClass(s) != StatusBadgeClass(t)
  {
  }
}
