/**
 * The in-memory job registry: a table from job id to job record, a table from
 * idempotency key to job id, and the insertion order of the ids (the order in
 * which a Python dict yields its values). All calls are sequential.
 */
module JobRegistry {
  import opened Wrappers
  import opened JobStatusEnum
  import opened JobResults
  import opened JobSchemas

  /** Python truthiness of an optional string argument: `None` and `""` are falsy. */
  predicate Truthy(s: Option<string>) {
    s.Some? && s.value != ""
  }

  /** The arguments of one `update_status` call after the job id, with their defaults. */
  datatype StatusUpdate = StatusUpdate(
    status: JobStatus,
    detail: string := "",
    result: JobResult := NoResult,
    startedAt: Option<string> := None,
    finishedAt: Option<string> := None,
    durationSeconds: Option<real> := None,
    totalTasks: Option<int> := None)

  /**
   * The copy `update_status` writes back for a stored job: status, detail and
   * result always replaced; the timestamps only by a truthy argument; the
   * duration and `total_tasks` by any argument that is not `None`.
   */
  function Apply(job: Job, u: StatusUpdate): Job {
    job.(
      status := u.status,
      detail := u.detail,
      result := u.result,
      startedAt := if Truthy(u.startedAt) then u.startedAt else job.startedAt,
      finishedAt := if Truthy(u.finishedAt) then u.finishedAt else job.finishedAt,
      durationSeconds := if u.durationSeconds.Some? then u.durationSeconds else job.durationSeconds,
      totalTasks := if u.totalTasks.Some? then u.totalTasks else job.totalTasks)
  }

  /** One `update_status` call on the table: the record under `id` replaced, an unknown id a no-op. */
  function Step(jobs: map<string, Job>, id: string, u: StatusUpdate): map<string, Job> {
    if id in jobs then jobs[id := Apply(jobs[id], u)] else jobs
  }

  /** The table after a sequence of `update_status` calls on one id, in order. */
  function ApplyAll(jobs: map<string, Job>, id: string, us: seq<StatusUpdate>): map<string, Job>
    decreases |us|
  {
    if us == [] then jobs else Step(ApplyAll(jobs, id, us[..|us| - 1]), id, us[|us| - 1])
  }

  /** The statuses a sequence of updates sets, in order. */
  function Statuses(us: seq<StatusUpdate>): (r: seq<JobStatus>)
    ensures |r| == |us|
    ensures forall i :: 0 <= i < |us| ==> r[i] == us[i].status
  {
    seq(|us|, i requires 0 <= i < |us| => us[i].status)
  }

  /** Records in the order of `ids`. */
  function JobsInOrder(jobs: map<string, Job>, ids: seq<string>): (r: seq<Job>)
    requires forall i :: 0 <= i < |ids| ==> ids[i] in jobs
    ensures |r| == |ids|
    ensures forall i :: 0 <= i < |ids| ==> r[i] == jobs[ids[i]]
  {
    if ids == [] then [] else [jobs[ids[0]]] + JobsInOrder(jobs, ids[1..])
  }

  class JobManager {
    var jobs: map<string, Job>
    var keys: map<string, string>
    var order: seq<string>

    /**
     * Every record is stored under its own id; `order` lists each stored id
     * exactly once; every key is non-empty and maps to a stored id.
     */
    ghost predicate Valid()
      reads this
    {
      && (forall id :: id in jobs ==> jobs[id].id == id)
      && (forall i :: 0 <= i < |order| ==> order[i] in jobs)
      && (forall id :: id in jobs ==> id in order)
      && (forall i, j :: 0 <= i < j < |order| ==> order[i] != order[j])
      && (forall k :: k in keys ==> k != "" && keys[k] in jobs)
    }

    constructor ()
      ensures Valid()
      ensures jobs == map[] && keys == map[] && order == []
    {
      jobs := map[];
      keys := map[];
      order := [];
    }

    /** `_get_job_by_key`: the job a truthy key maps to, if the key is known. */
    function JobForKey(key: Option<string>): (r: Option<Job>)
      reads this
      ensures !Truthy(key) ==> r == None
      ensures r.Some? ==> key.Some? && key.value in keys && keys[key.value] in jobs && r == Some(jobs[keys[key.value]])
      ensures Truthy(key) && key.value in keys && keys[key.value] != "" && keys[key.value] in jobs ==> r.Some?
    {
      if !Truthy(key) then None
      else if key.value in keys && keys[key.value] != "" && keys[key.value] in jobs then Some(jobs[keys[key.value]])
      else None
    }

    /** `_make_new_job`: store a fresh pending job under the id drawn from `uuid4`. */
    method MakeNewJob(freshId: string) returns (job: Job)
      requires Valid()
      requires freshId !in jobs
      modifies this
      ensures Valid()
      ensures job == Job(freshId)
      ensures jobs == old(jobs)[freshId := job]
      ensures order == old(order) + [freshId]
      ensures keys == old(keys)
    {
      job := Job(freshId, status := Pending);
      jobs := jobs[job.id := job];
      order := order + [job.id];
    }

    /**
     * `create(key)`: the job already bound to a truthy key, with `false`, and
     * nothing changes; otherwise one new pending job under the fresh id, with
     * `true`, and a truthy key is bound to it. `freshId` is the value `uuid4`
     * produced, which is not an id in use.
     */
    method Create(key: Option<string>, freshId: string) returns (job: Job, created: bool)
      requires Valid()
      requires freshId !in jobs
      modifies this
      ensures Valid()
      ensures old(JobForKey(key)).Some? ==>
        && job == old(JobForKey(key)).value && !created
        && jobs == old(jobs) && keys == old(keys) && order == old(order)
      ensures old(JobForKey(key)).None? ==>
        && created && job == Job(freshId) && job.id !in old(jobs)
        && jobs == old(jobs)[freshId := job]
        && order == old(order) + [freshId]
        && keys == (if Truthy(key) then old(keys)[key.value := freshId] else old(keys))
    {
      var existing := JobForKey(key);
      if existing.Some? {
        return existing.value, false;
      }
      job := MakeNewJob(freshId);
      if Truthy(key) {
        keys := keys[key.value := job.id];
      }
      created := true;
    }

    /** `set_status(job)`: replace the record stored under the job's id; an unknown id is a no-op. */
    method SetStatus(job: Job)
      requires Valid()
      modifies this
      ensures Valid()
      ensures jobs == (if job.id in old(jobs) then old(jobs)[job.id := job] else old(jobs))
      ensures keys == old(keys) && order == old(order)
    {
      if job.id in jobs {
        jobs := jobs[job.id := job];
      }
    }

    /**
     * `update_status(job_id, ...)`: copy the stored record, overwrite its
     * fields as `Apply` says, and write the copy back under the same id. The
     * current status is not consulted. An unknown id is a no-op.
     */
    method UpdateStatus(jobId: string, u: StatusUpdate)
      requires Valid()
      modifies this
      ensures Valid()
      ensures jobs == Step(old(jobs), jobId, u)
      ensures keys == old(keys) && order == old(order)
    {
      if jobId !in jobs {
        return;
      }
      var job := jobs[jobId];
      job := job.(status := u.status);
      job := job.(detail := u.detail);
      job := job.(result := u.result);
      if Truthy(u.startedAt) {
        job := job.(startedAt := u.startedAt);
      }
      if Truthy(u.finishedAt) {
        job := job.(finishedAt := u.finishedAt);
      }
      if u.durationSeconds.Some? {
        job := job.(durationSeconds := u.durationSeconds);
      }
      if u.totalTasks.Some? {
        job := job.(totalTasks := u.totalTasks);
      }
      jobs := jobs[jobId := job];
    }

    /** `get(job_id)`: the stored record, or `None`. */
    function Get(jobId: string): (r: Option<Job>)
      reads this
      ensures r.Some? <==> jobId in jobs
      ensures r.Some? ==> r.value == jobs[jobId]
    {
      if jobId in jobs then Some(jobs[jobId]) else None
    }

    /** `list()`: every stored record, once each, in creation order. */
    function List(): (r: seq<Job>)
      reads this
      requires Valid()
      ensures |r| == |order| == |jobs|
      ensures forall i :: 0 <= i < |order| ==> r[i] == jobs[order[i]]
      ensures forall id :: id in jobs ==> jobs[id] in r
    {
      OrderCoversJobs(jobs, order);
      JobsInOrder(jobs, order)
    }
  }

  /** A duplicate-free listing of exactly the table's ids has the table's size. */
  lemma OrderCoversJobs(jobs: map<string, Job>, order: seq<string>)
    requires forall i :: 0 <= i < |order| ==> order[i] in jobs
    requires forall id :: id in jobs ==> id in order
    requires forall i, j :: 0 <= i < j < |order| ==> order[i] != order[j]
    ensures |order| == |jobs|
    ensures forall id :: id in jobs ==> exists i :: 0 <= i < |order| && order[i] == id
  {
    DistinctCardinality(order);
    assert (set i | 0 <= i < |order| :: order[i]) == jobs.Keys;
  }

  /** A sequence without duplicates has as many distinct elements as positions. */
  lemma {:induction false} DistinctCardinality(s: seq<string>)
    requires forall i, j :: 0 <= i < j < |s| ==> s[i] != s[j]
    ensures |set i | 0 <= i < |s| :: s[i]| == |s|
  {
    if s != [] {
      var tail := s[1..];
      DistinctCardinality(tail);
      var rest := set i | 0 <= i < |tail| :: tail[i];
      var all := set i | 0 <= i < |s| :: s[i];
      assert all == {s[0]} + rest;
      assert s[0] !in rest;
    }
  }

  /**
   * Later arguments win for the always-overwritten fields; a truthy timestamp
   * and a duration or task count that is not `None` (0 included) replace the
   * stored value, and any other argument keeps it; the id never changes.
   */
  lemma ApplyOverwrites(job: Job, u: StatusUpdate)
    ensures Apply(job, u).id == job.id
    ensures Apply(job, u).status == u.status && Apply(job, u).detail == u.detail && Apply(job, u).result == u.result
    ensures Truthy(u.startedAt) ==> Apply(job, u).startedAt == u.startedAt
    ensures Truthy(u.finishedAt) ==> Apply(job, u).finishedAt == u.finishedAt
    ensures u.durationSeconds.Some? ==> Apply(job, u).durationSeconds == u.durationSeconds
    ensures u.totalTasks.Some? ==> Apply(job, u).totalTasks == u.totalTasks
    ensures !Truthy(u.startedAt) ==> Apply(job, u).startedAt == job.startedAt
    ensures !Truthy(u.finishedAt) ==> Apply(job, u).finishedAt == job.finishedAt
    ensures u.durationSeconds.None? ==> Apply(job, u).durationSeconds == job.durationSeconds
    ensures u.totalTasks.None? ==> Apply(job, u).totalTasks == job.totalTasks
  {
  }

  /** Repeating an update changes nothing more. */
  lemma ApplyIdempotent(job: Job, u: StatusUpdate)
    ensures Apply(Apply(job, u), u) == Apply(job, u)
  {
  }

  /** The registry does not order statuses: a completed job can be put back to pending. */
  lemma RegistryAcceptsBackwardTransition(jobs: map<string, Job>, id: string)
    requires id in jobs && jobs[id].status == Completed
    ensures Step(jobs, id, StatusUpdate(Pending))[id].status == Pending
  {
  }

  /** Updates on one id leave the set of ids and every other record as they were. */
  lemma {:induction false} ApplyAllTouchesOnlyId(jobs: map<string, Job>, id: string, us: seq<StatusUpdate>)
    ensures ApplyAll(jobs, id, us).Keys == jobs.Keys
    ensures forall other :: other in jobs && other != id ==> ApplyAll(jobs, id, us)[other] == jobs[other]
    ensures id in jobs ==> ApplyAll(jobs, id, us)[id].id == jobs[id].id
    ensures id !in jobs ==> ApplyAll(jobs, id, us) == jobs
    decreases |us|
  {
    if us != [] {
      ApplyAllTouchesOnlyId(jobs, id, us[..|us| - 1]);
    }
  }

  /** A sequence of updates is applied one after the other. */
  lemma {:induction false} ApplyAllAppend(jobs: map<string, Job>, id: string, us: seq<StatusUpdate>, vs: seq<StatusUpdate>)
    ensures ApplyAll(jobs, id, us + vs) == ApplyAll(ApplyAll(jobs, id, us), id, vs)
    decreases |vs|
  {
    if vs == [] {
      assert us + vs == us;
    } else {
      assert (us + vs)[..|us + vs| - 1] == us + vs[..|vs| - 1];
      ApplyAllAppend(jobs, id, us, vs[..|vs| - 1]);
    }
  }

  /** One update, in sequence form. */
  lemma ApplyAllOne(jobs: map<string, Job>, id: string, a: StatusUpdate)
    ensures ApplyAll(jobs, id, [a]) == Step(jobs, id, a)
  {
    assert [a][..0] == [];
  }

  /** Two updates, in sequence form. */
  lemma ApplyAllTwo(jobs: map<string, Job>, id: string, a: StatusUpdate, b: StatusUpdate)
    ensures ApplyAll(jobs, id, [a, b]) == Step(Step(jobs, id, a), id, b)
  {
    assert [a, b][..1] == [a];
    ApplyAllOne(jobs, id, a);
  }

  /** After a run of updates on a stored job, status, detail and result are the last update's. */
  lemma ApplyAllLast(jobs: map<string, Job>, id: string, us: seq<StatusUpdate>)
    requires id in jobs && us != []
    ensures id in ApplyAll(jobs, id, us)
    ensures ApplyAll(jobs, id, us)[id].status == us[|us| - 1].status
    ensures ApplyAll(jobs, id, us)[id].detail == us[|us| - 1].detail
    ensures ApplyAll(jobs, id, us)[id].result == us[|us| - 1].result
  {
    ApplyAllTouchesOnlyId(jobs, id, us[..|us| - 1]);
  }

  /**
   * Two-call idempotency: with the same truthy key, the second `create` returns
   * the job the first one made, and reports that it did not create it.
   */
  method CreateTwiceWithKey(jm: JobManager, key: string, id1: string, id2: string)
    returns (first: Job, second: Job, created1: bool, created2: bool)
    requires jm.Valid()
    requires key != "" && key !in jm.keys
    requires id1 != ""
    requires id1 !in jm.jobs && id2 !in jm.jobs && id1 != id2
    modifies jm
    ensures jm.Valid()
    ensures created1 && !created2 && second == first && first.id == id1
    ensures jm.jobs == old(jm.jobs)[id1 := first]
  {
    first, created1 := jm.Create(Some(key), id1);
    second, created2 := jm.Create(Some(key), id2);
  }

  /** Without a key every `create` makes a new job, so two calls give two distinct ids. */
  method CreateTwiceWithoutKey(jm: JobManager, id1: string, id2: string)
    returns (first: Job, second: Job)
    requires jm.Valid()
    requires id1 !in jm.jobs && id2 !in jm.jobs && id1 != id2
    modifies jm
    ensures jm.Valid()
    ensures first.id == id1 && second.id == id2 && first.id != second.id
    ensures first.status == Pending && second.status == Pending
    ensures jm.order == old(jm.order) + [id1, id2] && jm.keys == old(jm.keys)
  {
    var c1, c2;
    first, c1 := jm.Create(None, id1);
    second, c2 := jm.Create(None, id2);
  }
}
