/**
 The queue backends' view of jobs: named jobs with an object payload, a store that
 appends each added job under a fresh id, and the per-type listing that the jobs
 service hands back to the controller.
 */
module JobQueue {
  import opened JsValues

  /** The job type tags of the jobs interface; only `AtImport` is used by this controller. */
  datatype JobType = AtImport | OtherJob(tag: string)

  /** A queued job: backend-assigned id, type name, and payload object. */
  datatype Job = Job(id: nat, name: JobType, data: Object)

  /** What the controller returns for an enqueued job: `{ id, name }`. */
  datatype JobHandle = JobHandle(id: nat, name: JobType)

  /** One backend's contents: the jobs it still lists, in the order they were added,
      and the id it will assign to the next job. */
  datatype Store = Store(jobs: seq<Job>, nextId: nat)

  /** Every listed job has an id below `nextId`, and no two listed jobs share an id. */
  ghost predicate ValidStore(s: Store)
  {
    && (forall i :: 0 <= i < |s.jobs| ==> s.jobs[i].id < s.nextId)
    && (forall i, j :: 0 <= i < j < |s.jobs| ==> s.jobs[i].id != s.jobs[j].id)
  }

  /** `queue.add(name, data)`: append one job under a fresh id and return its handle. */
  function Add(s: Store, name: JobType, data: Object): (r: (Store, JobHandle))
    ensures r.0.jobs == s.jobs + [Job(r.1.id, name, data)]
    ensures r.1.name == name
    ensures ValidStore(s) ==> ValidStore(r.0)
    ensures ValidStore(s) ==> forall i :: 0 <= i < |s.jobs| ==> s.jobs[i].id != r.1.id
  {
    var job := Job(s.nextId, name, data);
    (Store(s.jobs + [job], s.nextId + 1), JobHandle(job.id, name))
  }

  /** The jobs of type `t` (the listing `jobList(t)` returns; only its membership is relied on). */
  function JobsOfType(jobs: seq<Job>, t: JobType): (r: seq<Job>)
    ensures forall i :: 0 <= i < |r| ==> r[i].name == t && r[i] in jobs
    ensures forall i :: 0 <= i < |jobs| && jobs[i].name == t ==> jobs[i] in r
    ensures |r| <= |jobs|
    decreases |jobs|
  {
    if |jobs| == 0 then []
    else
      var init := jobs[..|jobs| - 1];
      var last := jobs[|jobs| - 1];
      assert forall i :: 0 <= i < |init| ==> init[i] == jobs[i];
      JobsOfType(init, t) + (if last.name == t then [last] else [])
  }

  /** Adding a job extends the listing of its type by exactly that job, and leaves
      every other type's listing unchanged. */
  lemma JobsOfTypeAppend(jobs: seq<Job>, job: Job, t: JobType)
    ensures JobsOfType(jobs + [job], t) == JobsOfType(jobs, t) + (if job.name == t then [job] else [])
  {
    assert (jobs + [job])[..|jobs|] == jobs;
  }
}
