/**
 * The extraction job: mark the job running, fetch the description of every
 * item id in order (a marketplace error becomes that item's error entry), then
 * mark the job completed with a summary of the counts and the entries.
 */
module ExtractPipeline {
  import opened Wrappers
  import opened Text
  import opened JobStatusEnum
  import opened JobResults
  import opened JobSchemas
  import opened Exceptions
  import opened Collaborators
  import opened JobRegistry
  import opened ExtractSchemas

  /**
   * `description.get("plain_text") or description.get("text", "")`: a
   * non-empty plain text wins; otherwise the text, "" when the key is
   * missing and `None` when it is null.
   */
  function DescriptionOf(p: DescriptionPayload): (d: Option<string>)
    ensures p.plainText.JsonText? && p.plainText.s != "" ==> d == Some(p.plainText.s)
    ensures !(p.plainText.JsonText? && p.plainText.s != "") ==>
      d == (match p.text case Missing => Some("") case Null => None case JsonText(s) => Some(s))
  {
    if p.plainText.JsonText? && p.plainText.s != "" then Some(p.plainText.s)
    else match p.text
      case Missing => Some("")
      case Null => None
      case JsonText(s) => Some(s)
  }

  /** The fetch outcome is an exception that `extract` does not catch. */
  predicate Uncaught(o: FetchOutcome) {
    o.FetchRaised? && !o.error.MeliExtractError?
  }

  /** The entry for the k-th item from its fetch outcome, or the exception that escapes. */
  function EntryFor(o: FetchOutcome, id: string): Result<ExtractEntry, Exc> {
    match o
    case Fetched(p) => Ok(Described(id, DescriptionOf(p)))
    case FetchRaised(e) => if e.MeliExtractError? then Ok(ExtractFailed(id, Str(e))) else Err(e)
  }

  /**
   * The entries of the loop over `ids`, item k fetched by the k-th call; the
   * first uncaught exception ends the loop.
   */
  function Entries(ids: seq<string>, fetch: Fetcher): Result<seq<ExtractEntry>, Exc>
    decreases |ids|
  {
    if ids == [] then Ok([])
    else
      var n := |ids| - 1;
      match Entries(ids[..n], fetch)
      case Err(e) => Err(e)
      case Ok(es) =>
        match EntryFor(fetch(n, ids[n]), ids[n])
        case Err(e) => Err(e)
        case Ok(x) => Ok(es + [x])
  }

  /**
   * The loop finishes exactly when no fetch raises an uncaught exception; it
   * then has one entry per id, in order, each decided by that id's own call:
   * an error entry exactly when the call raised a marketplace error.
   */
  lemma {:induction false} EntriesPerItem(ids: seq<string>, fetch: Fetcher)
    ensures Entries(ids, fetch).Ok? <==> forall k :: 0 <= k < |ids| ==> !Uncaught(fetch(k, ids[k]))
    ensures Entries(ids, fetch).Ok? ==>
      && |Entries(ids, fetch).value| == |ids|
      && forall k :: 0 <= k < |ids| ==>
        && Entries(ids, fetch).value[k] == EntryFor(fetch(k, ids[k]), ids[k]).value
        && Entries(ids, fetch).value[k].id == ids[k]
        && (Entries(ids, fetch).value[k].ExtractFailed? <==> fetch(k, ids[k]).FetchRaised?)
    decreases |ids|
  {
    if ids != [] {
      var n := |ids| - 1;
      var init := ids[..n];
      EntriesPerItem(init, fetch);
      assert forall k :: 0 <= k < n ==> init[k] == ids[k];
    }
  }

  /** An uncaught exception escapes as the one raised by the first such call. */
  lemma {:induction false} EntriesFirstUncaught(ids: seq<string>, fetch: Fetcher)
    requires Entries(ids, fetch).Err?
    ensures exists k ::
      && 0 <= k < |ids| && Uncaught(fetch(k, ids[k]))
      && Entries(ids, fetch).error == fetch(k, ids[k]).error
      && forall j :: 0 <= j < k ==> !Uncaught(fetch(j, ids[j]))
    decreases |ids|
  {
    var n := |ids| - 1;
    var init := ids[..n];
    assert forall k :: 0 <= k < n ==> init[k] == ids[k];
    if Entries(init, fetch).Err? {
      EntriesFirstUncaught(init, fetch);
      var k :| 0 <= k < |init| && Uncaught(fetch(k, init[k]))
        && Entries(init, fetch).error == fetch(k, init[k]).error
        && forall j :: 0 <= j < k ==> !Uncaught(fetch(j, init[j]));
      assert Uncaught(fetch(k, ids[k]));
    } else {
      EntriesPerItem(init, fetch);
      assert Uncaught(fetch(n, ids[n]));
    }
  }

  /** `len([r for r in results if "error" in r])`. */
  function ErrorCount(entries: seq<ExtractEntry>): nat {
    if entries == [] then 0 else (if entries[0].ExtractFailed? then 1 else 0) + ErrorCount(entries[1..])
  }

  /** Entries with a description. */
  function SuccessCount(entries: seq<ExtractEntry>): nat {
    if entries == [] then 0 else (if entries[0].Described? then 1 else 0) + SuccessCount(entries[1..])
  }

  /** Every entry is either a success or an error, so `len(results) - errors_count` counts the successes. */
  lemma {:induction false} CountsAddUp(entries: seq<ExtractEntry>)
    ensures ErrorCount(entries) + SuccessCount(entries) == |entries|
  {
    if entries != [] {
      CountsAddUp(entries[1..]);
    }
  }

  /** The completion detail, with N entries, S = N - E successes and E errors. */
  function SummaryDetail(entries: seq<ExtractEntry>): string {
    "Completed successfully. processed=" + IntToDecimal(|entries|)
    + " success=" + IntToDecimal(|entries| - ErrorCount(entries))
    + " errors=" + IntToDecimal(ErrorCount(entries))
  }

  /** The first update: running, with the start time and the number of ids. */
  function RunningUpdate(ids: seq<string>, started: Timestamp): StatusUpdate {
    StatusUpdate(Running, detail := "Processing descriptions", startedAt := Some(started), totalTasks := Some(|ids|))
  }

  /** The second update: completed, with the summary, the entries, the finish time and the duration. */
  function CompletedUpdate(entries: seq<ExtractEntry>, finished: Timestamp, elapsed: real): StatusUpdate {
    StatusUpdate(Completed, detail := SummaryDetail(entries), result := ExtractionResults(entries),
                 finishedAt := Some(finished), durationSeconds := Some(elapsed))
  }

  /** What one run does: the registry updates it issues, and the exception it lets escape. */
  datatype ExtractRun = ExtractRun(updates: seq<StatusUpdate>, raised: Option<Exc>)

  /**
   * The run for `ids`, given the fetcher, the two clock readings and the
   * measured duration.
   */
  function ExtractPlan(ids: seq<string>, fetch: Fetcher, started: Timestamp, finished: Timestamp, elapsed: real): ExtractRun {
    match Entries(ids, fetch)
    case Err(e) => ExtractRun([RunningUpdate(ids, started)], Some(e))
    case Ok(entries) => ExtractRun([RunningUpdate(ids, started), CompletedUpdate(entries, finished, elapsed)], None)
  }

  /**
   * The fetch loop of `extract`: one call per id, in order, appending the
   * item's entry; an exception other than a marketplace error escapes.
   */
  method FetchEntries(ids: seq<string>, fetch: Fetcher) returns (r: Result<seq<ExtractEntry>, Exc>)
    ensures r == Entries(ids, fetch)
  {
    var results: seq<ExtractEntry> := [];
    var i := 0;
    while i < |ids|
      invariant 0 <= i <= |ids|
      invariant Entries(ids[..i], fetch) == Ok(results)
    {
      assert ids[..i + 1][..i] == ids[..i];
      var outcome := fetch(i, ids[i]);
      match outcome {
        case Fetched(p) =>
          results := results + [Described(ids[i], DescriptionOf(p))];
        case FetchRaised(e) =>
          if e.MeliExtractError? {
            results := results + [ExtractFailed(ids[i], Str(e))];
          } else {
            EntriesStopAt(ids, fetch, i);
            return Err(e);
          }
      }
      i := i + 1;
    }
    assert ids[..i] == ids;
    r := Ok(results);
  }

  /**
   * `extract(job, payload)` on the registry `jm`: the running update, the
   * fetch loop, then the completed update; an uncaught exception from the
   * fetcher ends the call after the first update.
   */
  method Extract(jm: JobManager, job: Job, payload: ItemDescriptionsRequest, fetch: Fetcher,
                 started: Timestamp, finished: Timestamp, elapsed: real)
    returns (raised: Option<Exc>)
    requires jm.Valid()
    modifies jm
    ensures jm.Valid()
    ensures jm.jobs == ApplyAll(old(jm.jobs), job.id, ExtractPlan(payload.itemIds, fetch, started, finished, elapsed).updates)
    ensures raised == ExtractPlan(payload.itemIds, fetch, started, finished, elapsed).raised
    ensures jm.keys == old(jm.keys) && jm.order == old(jm.order)
  {
    var ids := payload.itemIds;
    ghost var jobs0 := jm.jobs;
    var running := StatusUpdate(Running, detail := "Processing descriptions", startedAt := Some(started), totalTasks := Some(|ids|));
    jm.UpdateStatus(job.id, running);
    ApplyAllOne(jobs0, job.id, running);

    var fetched := FetchEntries(ids, fetch);
    if fetched.Err? {
      return Some(fetched.error);
    }
    var results := fetched.value;

    var errorsCount := ErrorCount(results);
    var successCount := |results| - errorsCount;
    var detail := "Completed successfully. processed=" + IntToDecimal(|results|)
      + " success=" + IntToDecimal(successCount) + " errors=" + IntToDecimal(errorsCount);
    var completed := StatusUpdate(Completed, detail := detail, result := ExtractionResults(results),
                                  finishedAt := Some(finished), durationSeconds := Some(elapsed));
    jm.UpdateStatus(job.id, completed);
    ApplyAllTwo(jobs0, job.id, running, completed);
    raised := None;
  }

  /** An uncaught exception at item i, after a clean prefix, is what the whole loop raises. */
  lemma EntriesStopAt(ids: seq<string>, fetch: Fetcher, i: nat)
    requires i < |ids| && Entries(ids[..i], fetch).Ok? && Uncaught(fetch(i, ids[i]))
    ensures Entries(ids, fetch) == Err(fetch(i, ids[i]).error)
  {
    assert ids[..i + 1][..i] == ids[..i];
    EntriesErrPersists(ids, fetch, i + 1);
  }

  /** Once a prefix of the loop has raised, the whole loop raises the same exception. */
  lemma {:induction false} EntriesErrPersists(ids: seq<string>, fetch: Fetcher, m: nat)
    requires m <= |ids| && Entries(ids[..m], fetch).Err?
    ensures Entries(ids, fetch) == Entries(ids[..m], fetch)
    decreases |ids| - m
  {
    if m < |ids| {
      assert ids[..m + 1][..m] == ids[..m];
      EntriesErrPersists(ids, fetch, m + 1);
    } else {
      assert ids[..m] == ids;
    }
  }

  /** A finished run leaves the job completed with the summary and entries, keeping the start data. */
  lemma ExtractCompletes(jobs: map<string, Job>, id: string, ids: seq<string>, fetch: Fetcher,
                         started: Timestamp, finished: Timestamp, elapsed: real)
    requires id in jobs && Entries(ids, fetch).Ok?
    ensures id in ApplyAll(jobs, id, ExtractPlan(ids, fetch, started, finished, elapsed).updates)
    ensures ExtractPlan(ids, fetch, started, finished, elapsed).raised == None
    ensures var j := ApplyAll(jobs, id, ExtractPlan(ids, fetch, started, finished, elapsed).updates)[id];
      && j.status == Completed
      && j.detail == SummaryDetail(Entries(ids, fetch).value)
      && j.result == ExtractionResults(Entries(ids, fetch).value)
      && j.startedAt == Some(started) && j.totalTasks == Some(|ids|)
      && j.finishedAt == Some(finished) && j.durationSeconds == Some(elapsed)
  {
    var es := Entries(ids, fetch).value;
    ApplyAllTwo(jobs, id, RunningUpdate(ids, started), CompletedUpdate(es, finished, elapsed));
  }

  /** An uncaught fetch exception escapes and leaves the job running, as the first update set it. */
  lemma ExtractLeavesRunning(jobs: map<string, Job>, id: string, ids: seq<string>, fetch: Fetcher,
                             started: Timestamp, finished: Timestamp, elapsed: real)
    requires id in jobs && Entries(ids, fetch).Err?
    ensures id in ApplyAll(jobs, id, ExtractPlan(ids, fetch, started, finished, elapsed).updates)
    ensures ExtractPlan(ids, fetch, started, finished, elapsed).raised == Some(Entries(ids, fetch).error)
    ensures var j := ApplyAll(jobs, id, ExtractPlan(ids, fetch, started, finished, elapsed).updates)[id];
      && j.status == Running && j.detail == "Processing descriptions" && j.result == NoResult
      && j.startedAt == Some(started) && j.totalTasks == Some(|ids|)
  {
    ApplyAllOne(jobs, id, RunningUpdate(ids, started));
  }

  /** Started from a pending job, the statuses a run sets never go back. */
  lemma ExtractTraceForwardOnly(ids: seq<string>, fetch: Fetcher, started: Timestamp, finished: Timestamp, elapsed: real)
    ensures ForwardOnly([Pending] + Statuses(ExtractPlan(ids, fetch, started, finished, elapsed).updates))
  {
  }

  /**
   * The completed job's counts: E error entries, one per marketplace error,
   * S = N - E successes, and S + E = N.
   */
  lemma SummaryCounts(ids: seq<string>, fetch: Fetcher)
    requires Entries(ids, fetch).Ok?
    ensures var es := Entries(ids, fetch).value;
      && |es| == |ids|
      && ErrorCount(es) <= |es|
      && |es| - ErrorCount(es) == SuccessCount(es)
      && SummaryDetail(es) == "Completed successfully. processed=" + IntToDecimal(|ids|)
           + " success=" + IntToDecimal(SuccessCount(es)) + " errors=" + IntToDecimal(ErrorCount(es))
  {
    EntriesPerItem(ids, fetch);
    CountsAddUp(Entries(ids, fetch).value);
  }

  /** Even when every fetch is a marketplace error the job ends completed, with N errors. */
  lemma AllFailedStillCompletes(ids: seq<string>, fetch: Fetcher)
    requires forall k :: 0 <= k < |ids| ==> fetch(k, ids[k]).FetchRaised? && fetch(k, ids[k]).error.MeliExtractError?
    ensures Entries(ids, fetch).Ok?
    ensures ErrorCount(Entries(ids, fetch).value) == |ids|
  {
    EntriesPerItem(ids, fetch);
    AllFailedCount(Entries(ids, fetch).value);
  }

  lemma {:induction false} AllFailedCount(entries: seq<ExtractEntry>)
    requires forall k :: 0 <= k < |entries| ==> entries[k].ExtractFailed?
    ensures ErrorCount(entries) == |entries|
  {
    if entries != [] {
      AllFailedCount(entries[1..]);
    }
  }

  /** Three ids, the middle one missing on the marketplace: two descriptions, one error. */
  lemma MiddleItemFails(fetch: Fetcher, p: DescriptionPayload, q: DescriptionPayload)
    requires fetch(0, "A") == Fetched(p)
    requires fetch(1, "B") == FetchRaised(MeliExtractError("not found"))
    requires fetch(2, "C") == Fetched(q)
    ensures Entries(["A", "B", "C"], fetch)
      == Ok([Described("A", DescriptionOf(p)), ExtractFailed("B", "not found"), Described("C", DescriptionOf(q))])
    ensures SummaryDetail(Entries(["A", "B", "C"], fetch).value)
      == "Completed successfully. processed=3 success=2 errors=1"
  {
    var ids := ["A", "B", "C"];
    var a, b, c := Described("A", DescriptionOf(p)), ExtractFailed("B", "not found"), Described("C", DescriptionOf(q));
    assert ids[..1] == ["A"] && ["A"][..0] == [];
    assert EntryFor(fetch(0, "A"), "A") == Ok(a);
    assert [] + [a] == [a];
    assert Entries(["A"], fetch) == Ok([a]);
    assert ids[..2] == ["A", "B"] && ["A", "B"][..1] == ["A"];
    assert EntryFor(fetch(1, "B"), "B") == Ok(b);
    assert [a] + [b] == [a, b];
    assert Entries(["A", "B"], fetch) == Ok([a, b]);
    assert ids[..2] == ["A", "B"];
    assert EntryFor(fetch(2, "C"), "C") == Ok(c);
    assert [a, b] + [c] == [a, b, c];
    assert Entries(ids, fetch) == Ok([a, b, c]);
    OneErrorInThree(a, b, c);
  }

  /** Three entries with one error print as three processed, two successes, one error. */
  lemma OneErrorInThree(a: ExtractEntry, b: ExtractEntry, c: ExtractEntry)
    requires a.Described? && b.ExtractFailed? && c.Described?
    ensures SummaryDetail([a, b, c]) == "Completed successfully. processed=3 success=2 errors=1"
  {
    var es := [a, b, c];
    assert es[1..] == [b, c] && es[1..][1..] == [c] && es[1..][1..][1..] == [];
    assert ErrorCount([c]) == 0;
    assert ErrorCount([b, c]) == 1;
    assert ErrorCount(es) == 1;
    assert DigitChar(3) == '3' && DigitChar(2) == '2' && DigitChar(1) == '1';
    assert IntToDecimal(3) == "3" && IntToDecimal(2) == "2" && IntToDecimal(1) == "1";
  }

  /** An extraction job as the list endpoint shows it. */
  function SummaryOf(j: Job): (r: ExtractSchemas.JobSummaryResponse)
    ensures r.id == j.id && r.status == j.status && r.detail == Some(j.detail)
    ensures r.startedAt == j.startedAt && r.finishedAt == j.finishedAt
    ensures r.durationSeconds == j.durationSeconds && r.totalTasks == j.totalTasks
  {
    ExtractSchemas.JobSummaryResponse(j.id, j.status, Some(j.detail), j.startedAt, j.finishedAt, j.durationSeconds, j.totalTasks)
  }

  /** `list_extractions()`: one summary per stored job, in creation order. */
  function ListExtractions(jm: JobManager): (r: seq<ExtractSchemas.JobSummaryResponse>)
    reads jm
    requires jm.Valid()
    ensures |r| == |jm.order|
    ensures forall i :: 0 <= i < |r| ==> r[i] == SummaryOf(jm.jobs[jm.order[i]])
  {
    var js := jm.List();
    seq(|js|, i requires 0 <= i < |js| => SummaryOf(js[i]))
  }

  /** `get_extraction(job_id)`: the stored job's full detail, or `None` for an unknown id. */
  function GetExtraction(jm: JobManager, jobId: string): (r: Option<ExtractSchemas.JobDetailResponse>)
    reads jm
    ensures r.None? <==> jobId !in jm.jobs
    ensures r.Some? ==>
      && r.value.id == jm.jobs[jobId].id && r.value.status == jm.jobs[jobId].status
      && r.value.detail == Some(jm.jobs[jobId].detail) && r.value.result == jm.jobs[jobId].result
      && r.value.startedAt == jm.jobs[jobId].startedAt && r.value.finishedAt == jm.jobs[jobId].finishedAt
      && r.value.durationSeconds == jm.jobs[jobId].durationSeconds && r.value.totalTasks == jm.jobs[jobId].totalTasks
  {
    match jm.Get(jobId)
    case None => None
    case Some(j) => Some(ExtractSchemas.JobDetailResponse(j.id, j.status, Some(j.detail), j.result,
                                                           j.startedAt, j.finishedAt, j.durationSeconds, j.totalTasks))
  }
}
