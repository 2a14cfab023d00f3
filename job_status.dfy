/**
 * The status domain of a background job: a string enumeration with exactly
 * four members, each of whose value is its own name.
 */
module JobStatusEnum {
  import opened Wrappers

  datatype JobStatus = Pending | Running | Completed | Failed

  /** The member's string value; as a `StrEnum` member it compares equal to this string. */
  function Value(s: JobStatus): string {
    match s
    case Pending => "pending"
    case Running => "running"
    case Completed => "completed"
    case Failed => "failed"
  }

  /** Position of a member in declaration order. */
  function Ordinal(s: JobStatus): nat {
    match s
    case Pending => 0
    case Running => 1
    case Completed => 2
    case Failed => 3
  }

  /** All members, in declaration order: exactly four, with pairwise distinct values. */
  function AllStatuses(): (r: seq<JobStatus>)
    ensures |r| == 4
    ensures forall s: JobStatus :: Ordinal(s) < |r| && r[Ordinal(s)] == s
    ensures forall i, j :: 0 <= i < j < |r| ==> Value(r[i]) != Value(r[j])
  {
    [Pending, Running, Completed, Failed]
  }

  /** Lookup by value, as `JobStatus(v)` does: the member whose value is `v`, if any. */
  function FromValue(v: string): (r: Option<JobStatus>)
    ensures r.Some? ==> Value(r.value) == v
    ensures r.None? ==> forall s: JobStatus :: Value(s) != v
  {
    if v == "pending" then Some(Pending)
    else if v == "running" then Some(Running)
    else if v == "completed" then Some(Completed)
    else if v == "failed" then Some(Failed)
    else None
  }

  /** The four values are pairwise distinct, so a value names exactly one member. */
  lemma ValueRoundTrip(s: JobStatus)
    ensures FromValue(Value(s)) == Some(s)
  {
  }

  /** Position of a status on the lifecycle pending, running, then one terminal state. */
  function Rank(s: JobStatus): nat {
    match s
    case Pending => 0
    case Running => 1
    case Completed => 2
    case Failed => 2
  }

  predicate IsTerminal(s: JobStatus) {
    s == Completed || s == Failed
  }

  /**
   * `b` may be observed after `a` without going back along
   * pending -> running -> {completed, failed}: either the same status or a
   * later stage (so never one terminal state after the other).
   */
  predicate MayFollow(a: JobStatus, b: JobStatus) {
    a == b || Rank(a) < Rank(b)
  }

  /** Every consecutive pair of observed statuses moves forward. */
  predicate ForwardOnly(trace: seq<JobStatus>) {
    forall i :: 0 <= i < |trace| - 1 ==> MayFollow(trace[i], trace[i + 1])
  }

  /** A forward-only trace never goes back: any later status has at least the same rank. */
  lemma {:induction false} ForwardOnlyIsMonotone(trace: seq<JobStatus>, i: nat, j: nat)
    requires ForwardOnly(trace)
    requires i <= j < |trace|
    ensures Rank(trace[i]) <= Rank(trace[j])
    ensures IsTerminal(trace[i]) ==> trace[j] == trace[i]
    decreases j - i
  {
    if i < j {
      ForwardOnlyIsMonotone(trace, i + 1, j);
      assert MayFollow(trace[i], trace[i + 1]);
    }
  }
}
