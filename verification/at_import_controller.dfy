/**
 The Airtable-import controller: queue selection at construction, the direct
 import endpoint, the sync trigger (duplicate guard, base URL resolution and
 payload construction) and the abort endpoint.

 Requests are handled one at a time against a fixed snapshot of the queues;
 every operation returns the queues as they are after the call.
 */
module AtImportController {
  import opened Wrappers
  import opened JsValues
  import opened ObjectLiteral
  import opened JobQueue

  /** The environment variables the controller reads. */
  datatype Env = Env(redisUrl: EnvVar, docker: EnvVar, port: EnvVar)

  /** The two interchangeable queue backends. */
  datatype Backend = Broker | Fallback

  /** Both backends' contents: the broker-backed jobs queue and the in-process fallback queue. */
  datatype Queues = Queues(broker: Store, fallback: Store)

  /** A constructed controller; its active queue never changes afterwards. */
  datatype Controller = Controller(active: Backend)

  /** A stored sync source, with the user `getUser()` resolves for it.
      `details` is `None` when the stored details are null or undefined. */
  datatype SyncSource = SyncSource(details: Option<Object>, projectId: Value, baseId: Value, user: Value)

  /** The error a rejected trigger raises. */
  datatype Error = BadRequest(message: string)

  const SyncInProgress: string := "Sync already in progress"

  /** The port used for the loopback URL when `PORT` is unset or empty. */
  const DefaultPort: string := "8080"

  const LoopbackPrefix: string := "http://localhost:"

  /** The keys the trigger payload writes after spreading the details. */
  const AfterSpreadKeys: set<string> := {"projectId", "baseId", "authToken", "baseURL", "user"}

  /** Constructor: the broker queue iff `NC_REDIS_URL` is truthy, else the fallback queue. */
  function NewController(env: Env): (c: Controller)
    ensures c.active == Broker <==> EnvTruthy(env.redisUrl)
    ensures c.active == Fallback <==> (env.redisUrl.None? || env.redisUrl.value == "")
  {
    Controller(if EnvTruthy(env.redisUrl) then Broker else Fallback)
  }

  /** The store of the controller's active queue. */
  function Active(c: Controller, qs: Queues): Store
  {
    if c.active == Broker then qs.broker else qs.fallback
  }

  /** `activeQueue.add(name, data)`: append to the active queue only. */
  function Enqueue(c: Controller, qs: Queues, name: JobType, data: Object): (r: (Queues, JobHandle))
    ensures Active(c, r.0).jobs == Active(c, qs).jobs + [Job(r.1.id, name, data)]
    ensures r.1.name == name
    ensures c.active == Broker ==> r.0.fallback == qs.fallback
    ensures c.active == Fallback ==> r.0.broker == qs.broker
    ensures ValidStore(Active(c, qs)) ==> ValidStore(Active(c, r.0))
  {
    var (s, h) := Add(Active(c, qs), name, data);
    (if c.active == Broker then qs.(broker := s) else qs.(fallback := s), h)
  }

  /** `importAirtable`: enqueue one `AtImport` job whose data is a shallow copy of the body. */
  function ImportAirtable(c: Controller, qs: Queues, body: Object): (r: (Queues, JobHandle))
    ensures Active(c, r.0).jobs == Active(c, qs).jobs + [Job(r.1.id, AtImport, body)]
    ensures r.1.name == AtImport
    ensures c.active == Broker ==> r.0.fallback == qs.fallback
    ensures c.active == Fallback ==> r.0.broker == qs.broker
  {
    var literal := [Spread(body)];
    assert literal[..0] == [];
    assert Eval(literal) == map[] + body == body;
    Enqueue(c, qs, AtImport, Eval(literal))
  }

  /** After a direct import, listing the `AtImport` jobs of the active queue shows the new job
      with the body as its payload, after every `AtImport` job listed before. */
  lemma ImportAirtableIsListed(c: Controller, qs: Queues, body: Object)
    ensures var (qs', h) := ImportAirtable(c, qs, body);
      JobsOfType(Active(c, qs').jobs, AtImport) == JobsOfType(Active(c, qs).jobs, AtImport) + [Job(h.id, AtImport, body)]
  {
    var (qs', h) := ImportAirtable(c, qs, body);
    JobsOfTypeAppend(Active(c, qs).jobs, Job(h.id, AtImport, body), AtImport);
  }

  /** The `syncId` a job is keyed under, when its payload has a string `syncId`. */
  function SyncIdOf(j: Job): Option<string>
  {
    if "syncId" in j.data && j.data["syncId"].Str? then Some(j.data["syncId"].s) else None
  }

  /** `j.data.syncId === syncId`: strict equality with a string holds only when the job's
      `syncId` is that same string. */
  predicate TargetsSync(j: Job, syncId: string)
  {
    SyncIdOf(j) == Some(syncId)
  }

  /** `jobs.find(j => j.data.syncId === syncId)`: the first job targeting `syncId`, if any. */
  function FindSync(jobs: seq<Job>, syncId: string): (r: Option<Job>)
    ensures r.None? <==> forall i :: 0 <= i < |jobs| ==> !TargetsSync(jobs[i], syncId)
    ensures r.Some? ==> exists i :: (0 <= i < |jobs| && jobs[i] == r.value && TargetsSync(jobs[i], syncId)
      && forall j :: 0 <= j < i ==> !TargetsSync(jobs[j], syncId))
    decreases |jobs|
  {
    if |jobs| == 0 then None
    else if TargetsSync(jobs[0], syncId) then Some(jobs[0])
    else
      var r := FindSync(jobs[1..], syncId);
      assert forall i :: 1 <= i < |jobs| ==> jobs[i] == jobs[1..][i - 1];
      r
  }

  /** The `baseURL` for the worker: a loopback URL on `PORT` (default 8080) in docker
      mode, otherwise the site URL the request arrived on. */
  function BaseUrl(env: Env, siteUrl: Value): (r: Value)
    ensures EnvTruthy(env.docker) && EnvTruthy(env.port) ==> r == Str(LoopbackPrefix + env.port.value)
    ensures EnvTruthy(env.docker) && !EnvTruthy(env.port) ==> r == Str("http://localhost:8080")
    ensures !EnvTruthy(env.docker) ==> r == siteUrl
  {
    assert LoopbackPrefix + DefaultPort == "http://localhost:8080";
    if EnvTruthy(env.docker) then Str(LoopbackPrefix + EnvOr(env.port, DefaultPort)) else siteUrl
  }

  /** In docker mode the request's site URL has no influence on `baseURL`. */
  lemma BaseUrlIgnoresSiteInDocker(env: Env, site1: Value, site2: Value)
    requires EnvTruthy(env.docker)
    ensures BaseUrl(env, site1) == BaseUrl(env, site2)
    ensures BaseUrl(env, site1).Str? && LoopbackPrefix <= BaseUrl(env, site1).s
  {
  }

  /** `syncSource?.details || {}`. */
  function DetailsOrEmpty(details: Option<Object>): Object
  {
    if details.Some? then details.value else map[]
  }

  /** The members of the payload literal of `triggerSync`, in source order. */
  function TriggerLiteral(syncId: string, source: SyncSource, baseURL: Value): seq<Member>
  {
    [ Prop("syncId", Str(syncId)),
      Spread(DetailsOrEmpty(source.details)),
      Prop("projectId", source.projectId),
      Prop("baseId", source.baseId),
      Prop("authToken", Str("")),
      Prop("baseURL", baseURL),
      Prop("user", source.user) ]
  }

  /** The job data `triggerSync` enqueues. */
  function TriggerPayload(syncId: string, source: SyncSource, baseURL: Value): Object
  {
    Eval(TriggerLiteral(syncId, source, baseURL))
  }

  /** Precedence in the trigger payload: every detail key is present; the five keys written
      after the spread always carry their explicit values; `syncId` is the route parameter
      only when the details do not supply one of their own. */
  lemma {:induction false} TriggerPayloadPrecedence(syncId: string, source: SyncSource, baseURL: Value)
    ensures TriggerPayload(syncId, source, baseURL).Keys
      == {"syncId"} + AfterSpreadKeys + DetailsOrEmpty(source.details).Keys
    ensures TriggerPayload(syncId, source, baseURL)["projectId"] == source.projectId
    ensures TriggerPayload(syncId, source, baseURL)["baseId"] == source.baseId
    ensures TriggerPayload(syncId, source, baseURL)["authToken"] == Str("")
    ensures TriggerPayload(syncId, source, baseURL)["baseURL"] == baseURL
    ensures TriggerPayload(syncId, source, baseURL)["user"] == source.user
    ensures var d := DetailsOrEmpty(source.details);
      TriggerPayload(syncId, source, baseURL)["syncId"] == if "syncId" in d then d["syncId"] else Str(syncId)
    ensures var d := DetailsOrEmpty(source.details);
      forall k :: k in d && k !in AfterSpreadKeys ==> TriggerPayload(syncId, source, baseURL)[k] == d[k]
  {
    var ms := TriggerLiteral(syncId, source, baseURL);
    var d := DetailsOrEmpty(source.details);
    forall k
      ensures k in Eval(ms) <==> k in {"syncId"} + AfterSpreadKeys + d.Keys
    {
      EvalKeys(ms, k);
      if k in {"syncId"} + AfterSpreadKeys + d.Keys {
        assert Defines(ms[0], k) || Defines(ms[1], k) || Defines(ms[2], k) || Defines(ms[3], k)
          || Defines(ms[4], k) || Defines(ms[5], k) || Defines(ms[6], k);
      }
    }
    EvalDecidedBy(ms, 2, "projectId");
    EvalDecidedBy(ms, 3, "baseId");
    EvalDecidedBy(ms, 4, "authToken");
    EvalDecidedBy(ms, 5, "baseURL");
    EvalDecidedBy(ms, 6, "user");
    if "syncId" in d {
      EvalDecidedBy(ms, 1, "syncId");
    } else {
      EvalDecidedBy(ms, 0, "syncId");
    }
    forall k | k in d && k !in AfterSpreadKeys
      ensures Eval(ms)[k] == d[k]
    {
      EvalDecidedBy(ms, 1, k);
    }
  }

  /** The guard and the enqueue shared by both payload orders: reject when a listed job
      already targets `syncId`, otherwise append exactly one `AtImport` job with `data`. */
  function GuardedDispatch(c: Controller, qs: Queues, listed: seq<Job>, syncId: string, data: Object)
    : (r: (Queues, Result<JobHandle, Error>))
    ensures r.1.Failure? <==> exists i :: 0 <= i < |listed| && TargetsSync(listed[i], syncId)
    ensures r.1.Failure? ==> r.1.error == BadRequest(SyncInProgress) && r.0 == qs
    ensures r.1.Success? ==> (r.1.value.name == AtImport
      && Active(c, r.0).jobs == Active(c, qs).jobs + [Job(r.1.value.id, AtImport, data)])
    ensures c.active == Broker ==> r.0.fallback == qs.fallback
    ensures c.active == Fallback ==> r.0.broker == qs.broker
    ensures ValidStore(Active(c, qs)) ==> ValidStore(Active(c, r.0))
  {
    if FindSync(listed, syncId).Some? then
      (qs, Failure(BadRequest(SyncInProgress)))
    else
      var (qs', h) := Enqueue(c, qs, AtImport, data);
      (qs', Success(h))
  }

  /** `triggerSync` as written: `listed` is the `jobList(AtImport)` snapshot, `env` the
      environment at call time, `siteUrl` the request's `ncSiteUrl`. */
  function TriggerSync(c: Controller, qs: Queues, env: Env, listed: seq<Job>, syncId: string,
                       source: SyncSource, siteUrl: Value): (r: (Queues, Result<JobHandle, Error>))
    ensures r.1.Failure? <==> exists i :: 0 <= i < |listed| && TargetsSync(listed[i], syncId)
    ensures r.1.Failure? ==> r.1.error == BadRequest(SyncInProgress) && r.0 == qs
    ensures r.1.Success? ==> (r.1.value.name == AtImport
      && Active(c, r.0).jobs == Active(c, qs).jobs
         + [Job(r.1.value.id, AtImport, TriggerPayload(syncId, source, BaseUrl(env, siteUrl)))])
    ensures c.active == Broker ==> r.0.fallback == qs.fallback
    ensures c.active == Fallback ==> r.0.broker == qs.broker
  {
    GuardedDispatch(c, qs, listed, syncId, TriggerPayload(syncId, source, BaseUrl(env, siteUrl)))
  }

  /** The object has key `k`, bound to `v`. */
  predicate Carries(data: Object, k: string, v: Value)
  {
    k in data && data[k] == v
  }

  /** A trigger that finds no listed job for `syncId` enqueues one job carrying the source's
      project and base ids, the resolved base URL, an empty auth token and the source's user;
      its `syncId` is the route parameter unless the details carry a `syncId`. */
  lemma TriggerSyncEnqueuesPayload(c: Controller, qs: Queues, env: Env, listed: seq<Job>, syncId: string,
                                   source: SyncSource, siteUrl: Value)
    requires forall i :: 0 <= i < |listed| ==> !TargetsSync(listed[i], syncId)
    ensures var (qs', res) := TriggerSync(c, qs, env, listed, syncId, source, siteUrl);
      && res.Success?
      && |Active(c, qs').jobs| == |Active(c, qs).jobs| + 1
      && var data := Active(c, qs').jobs[|Active(c, qs).jobs|].data;
      && Carries(data, "projectId", source.projectId)
      && Carries(data, "baseId", source.baseId)
      && Carries(data, "authToken", Str(""))
      && Carries(data, "baseURL", BaseUrl(env, siteUrl))
      && Carries(data, "user", source.user)
      && ("syncId" !in DetailsOrEmpty(source.details) ==> Carries(data, "syncId", Str(syncId)))
  {
    TriggerPayloadPrecedence(syncId, source, BaseUrl(env, siteUrl));
  }

  /** `abortImport`: returns `{}` and leaves both queues as they are. */
  function AbortImport(qs: Queues, syncId: string): (r: (Queues, Object))
    ensures r.0 == qs
    ensures r.1 == map[]
  {
    (qs, map[])
  }

  /** At most one `AtImport` job per sync id. */
  ghost predicate DedupInvariant(jobs: seq<Job>)
  {
    forall i, j ::
      (0 <= i < j < |jobs| && jobs[i].name == AtImport && jobs[j].name == AtImport && SyncIdOf(jobs[i]).Some?)
      ==> SyncIdOf(jobs[i]) != SyncIdOf(jobs[j])
  }

  /** The guard keeps the invariant whenever the listing is the active queue's `AtImport` jobs
      and the enqueued data is keyed under the guarded id (or under no string id at all). */
  lemma {:induction false} GuardedDispatchKeepsDedup(c: Controller, qs: Queues, syncId: string, data: Object)
    requires DedupInvariant(Active(c, qs).jobs)
    requires "syncId" in data && data["syncId"].Str? ==> data["syncId"] == Str(syncId)
    ensures var (qs', _) := GuardedDispatch(c, qs, JobsOfType(Active(c, qs).jobs, AtImport), syncId, data);
      DedupInvariant(Active(c, qs').jobs)
  {
    var before := Active(c, qs).jobs;
    var listed := JobsOfType(before, AtImport);
    var (qs', res) := GuardedDispatch(c, qs, listed, syncId, data);
    if res.Success? {
      // The new job is keyed under `syncId` (or under no string id), and no earlier
      // `AtImport` job is, since each of them is listed and the guard passed.
      forall i | 0 <= i < |before| && before[i].name == AtImport
        ensures !TargetsSync(before[i], syncId)
      {
        assert before[i] in listed;
      }
    }
  }

  /** As written, a `syncId` inside the details defeats the guard: when the active queue
      already holds an `AtImport` job for sync `other`, a trigger for a different sync whose
      source details say `syncId: other` passes the guard and enqueues a second job for `other`. */
  lemma TriggerSyncBreaksDedup(c: Controller, qs: Queues, env: Env, syncId: string, other: string,
                               source: SyncSource, siteUrl: Value, k: nat)
    requires k < |Active(c, qs).jobs|
    requires Active(c, qs).jobs[k].name == AtImport && SyncIdOf(Active(c, qs).jobs[k]) == Some(other)
    requires forall i :: 0 <= i < |Active(c, qs).jobs| ==> !TargetsSync(Active(c, qs).jobs[i], syncId)
    requires Carries(DetailsOrEmpty(source.details), "syncId", Str(other))
    ensures var listed := JobsOfType(Active(c, qs).jobs, AtImport);
      var (qs', res) := TriggerSync(c, qs, env, listed, syncId, source, siteUrl);
      res.Success? && !DedupInvariant(Active(c, qs').jobs)
  {
    var before := Active(c, qs).jobs;
    var listed := JobsOfType(before, AtImport);
    TriggerPayloadPrecedence(syncId, source, BaseUrl(env, siteUrl));
    var (qs', res) := TriggerSync(c, qs, env, listed, syncId, source, siteUrl);
    assert forall i :: 0 <= i < |listed| ==> !TargetsSync(listed[i], syncId);
    var after := Active(c, qs').jobs;
    assert after[k] == before[k];
    assert SyncIdOf(after[|before|]) == Some(other);
  }

  /** The situation above occurs: a queue holding one job for sync "a", and a source for sync "b"
      whose details carry `syncId: "a"`. */
  lemma TriggerSyncBreaksDedupExample()
    ensures var jobs := [Job(0, AtImport, map["syncId" := Str("a")])];
      var qs := Queues(Store([], 0), Store(jobs, 1));
      var source := SyncSource(Some(map["syncId" := Str("a")]), Str("p1"), Str("b1"), Null);
      var (qs', res) := TriggerSync(Controller(Fallback), qs, Env(None, None, None),
                                    JobsOfType(jobs, AtImport), "b", source, Str("http://site"));
      DedupInvariant(jobs) && res.Success? && !DedupInvariant(qs'.fallback.jobs)
  {
    var jobs := [Job(0, AtImport, map["syncId" := Str("a")])];
    var qs := Queues(Store([], 0), Store(jobs, 1));
    var source := SyncSource(Some(map["syncId" := Str("a")]), Str("p1"), Str("b1"), Null);
    assert SyncIdOf(jobs[0]) == Some("a");
    assert !TargetsSync(jobs[0], "b");
    TriggerSyncBreaksDedup(Controller(Fallback), qs, Env(None, None, None), "b", "a", source, Str("http://site"), 0);
  }

  /** The members of the payload literal with the spread first, so that the explicit
      `syncId` wins over a `syncId` in the details. */
  function IntendedTriggerLiteral(syncId: string, source: SyncSource, baseURL: Value): seq<Member>
  {
    [ Spread(DetailsOrEmpty(source.details)),
      Prop("syncId", Str(syncId)),
      Prop("projectId", source.projectId),
      Prop("baseId", source.baseId),
      Prop("authToken", Str("")),
      Prop("baseURL", baseURL),
      Prop("user", source.user) ]
  }

  /** The job data of the corrected trigger. */
  function IntendedTriggerPayload(syncId: string, source: SyncSource, baseURL: Value): Object
  {
    Eval(IntendedTriggerLiteral(syncId, source, baseURL))
  }

  /** In the corrected payload every explicit key, `syncId` included, overrides the details,
      and every other detail key is carried over unchanged. */
  lemma {:induction false} IntendedTriggerPayloadPrecedence(syncId: string, source: SyncSource, baseURL: Value)
    ensures IntendedTriggerPayload(syncId, source, baseURL).Keys
      == {"syncId"} + AfterSpreadKeys + DetailsOrEmpty(source.details).Keys
    ensures IntendedTriggerPayload(syncId, source, baseURL)["syncId"] == Str(syncId)
    ensures IntendedTriggerPayload(syncId, source, baseURL)["projectId"] == source.projectId
    ensures IntendedTriggerPayload(syncId, source, baseURL)["baseId"] == source.baseId
    ensures IntendedTriggerPayload(syncId, source, baseURL)["authToken"] == Str("")
    ensures IntendedTriggerPayload(syncId, source, baseURL)["baseURL"] == baseURL
    ensures IntendedTriggerPayload(syncId, source, baseURL)["user"] == source.user
    ensures var d := DetailsOrEmpty(source.details);
      forall k :: k in d && k != "syncId" && k !in AfterSpreadKeys ==> IntendedTriggerPayload(syncId, source, baseURL)[k] == d[k]
  {
    var ms := IntendedTriggerLiteral(syncId, source, baseURL);
    var d := DetailsOrEmpty(source.details);
    forall k
      ensures k in Eval(ms) <==> k in {"syncId"} + AfterSpreadKeys + d.Keys
    {
      EvalKeys(ms, k);
      if k in {"syncId"} + AfterSpreadKeys + d.Keys {
        assert Defines(ms[0], k) || Defines(ms[1], k) || Defines(ms[2], k) || Defines(ms[3], k)
          || Defines(ms[4], k) || Defines(ms[5], k) || Defines(ms[6], k);
      }
    }
    EvalDecidedBy(ms, 1, "syncId");
    EvalDecidedBy(ms, 2, "projectId");
    EvalDecidedBy(ms, 3, "baseId");
    EvalDecidedBy(ms, 4, "authToken");
    EvalDecidedBy(ms, 5, "baseURL");
    EvalDecidedBy(ms, 6, "user");
    forall k | k in d && k != "syncId" && k !in AfterSpreadKeys
      ensures Eval(ms)[k] == d[k]
    {
      EvalDecidedBy(ms, 0, k);
    }
  }

  /** The corrected `triggerSync`: the same guard, with the corrected payload. */
  function IntendedTriggerSync(c: Controller, qs: Queues, env: Env, listed: seq<Job>, syncId: string,
                               source: SyncSource, siteUrl: Value): (r: (Queues, Result<JobHandle, Error>))
    ensures r.1.Failure? <==> exists i :: 0 <= i < |listed| && TargetsSync(listed[i], syncId)
    ensures r.1.Failure? ==> r.1.error == BadRequest(SyncInProgress) && r.0 == qs
    ensures r.1.Success? ==> (r.1.value.name == AtImport
      && Active(c, r.0).jobs == Active(c, qs).jobs
         + [Job(r.1.value.id, AtImport, IntendedTriggerPayload(syncId, source, BaseUrl(env, siteUrl)))])
    ensures c.active == Broker ==> r.0.fallback == qs.fallback
    ensures c.active == Fallback ==> r.0.broker == qs.broker
  {
    GuardedDispatch(c, qs, listed, syncId, IntendedTriggerPayload(syncId, source, BaseUrl(env, siteUrl)))
  }

  /** With the corrected payload, a trigger checked against the active queue's `AtImport`
      listing never leaves two `AtImport` jobs for the same sync id, and a successful trigger
      enqueues a job for exactly the requested sync. */
  lemma IntendedTriggerSyncKeepsDedup(c: Controller, qs: Queues, env: Env, syncId: string,
                                      source: SyncSource, siteUrl: Value)
    requires DedupInvariant(Active(c, qs).jobs)
    ensures var listed := JobsOfType(Active(c, qs).jobs, AtImport);
      var (qs', res) := IntendedTriggerSync(c, qs, env, listed, syncId, source, siteUrl);
      && DedupInvariant(Active(c, qs').jobs)
      && (res.Success? ==> SyncIdOf(Active(c, qs').jobs[|Active(c, qs).jobs|]) == Some(syncId))
  {
    var data := IntendedTriggerPayload(syncId, source, BaseUrl(env, siteUrl));
    IntendedTriggerPayloadPrecedence(syncId, source, BaseUrl(env, siteUrl));
    GuardedDispatchKeepsDedup(c, qs, syncId, data);
  }
}
