# Airtable-import controller: queue dispatch and sync-trigger guard

This project models the decision logic of nocodb's `AtImportController`
(`packages/nocodb/src/modules/jobs/at-import/at-import.controller.ts`) in Dafny:

- **Queue selection.** The constructor picks the active queue once. It uses the
  broker-backed jobs queue when `NC_REDIS_URL` is truthy, and the in-process
  fallback queue otherwise.
- **Direct import** (`importAirtable`). A shallow copy of the request body is
  enqueued as one `AtImport` job, and `{ id, name }` is returned.
- **Sync trigger** (`triggerSync`). The controller lists the `AtImport` jobs and
  rejects the request with "Sync already in progress" if any listed job's
  `data.syncId` strictly equals the route's `syncId`. Otherwise it resolves
  `baseURL` and enqueues one `AtImport` job. In docker mode `baseURL` is
  `http://localhost:` plus `PORT`, or `8080` when `PORT` is unset or empty. Outside docker
  mode it is the request's `ncSiteUrl`. The payload is built by an object
  literal with a spread.
- **Abort** (`abortImport`). A no-op that returns `{}`.

Everything is a pure function over explicit inputs:

- an `Env` record holds the three environment variables;
- a `Queues` value holds the contents of both backends;
- the `jobList(AtImport)` snapshot is passed in as a sequence of jobs;
- the sync source and its user are passed in as a `SyncSource` record;
- the request's site URL is passed in as a `Value`.

Modules:
- `Wrappers`: `Option` and `Result`.
- `JsValues`: JavaScript values, plain objects as maps, and environment-variable truthiness.
- `ObjectLiteral`: left-to-right evaluation of `{ k: v, ...src }`, where a later member overrides an earlier one, and the lemma that the last writer of a key decides its value.
- `JobQueue`: jobs, a backend store that appends under fresh ids, and per-type listing.
- `AtImportController`: the controller's operations and the properties proved about them.

Two points of the code are modelled exactly as written:

- A duplicate trigger fails through `NcError.badRequest("Sync already in progress")`.
- `syncId` is written *before* the `...details` spread, while `projectId`, `baseId`, `authToken`, `baseURL` and `user` are written after it. A `syncId` inside the details therefore overrides the route parameter, although the guard checks the route parameter. See Findings.

## Model

| member | source | states |
|---|---|---|
| AtImportController.NewController | packages/nocodb/src/modules/jobs/at-import/at-import.controller.ts:21-23 | the active queue is the broker queue iff `NC_REDIS_URL` is set and non-empty, and the fallback queue iff it is unset or empty |
| AtImportController.Enqueue | packages/nocodb/src/modules/jobs/at-import/at-import.controller.ts:29-31 | `activeQueue.add` appends exactly one job with the given name and data to the active queue, leaves the other queue unchanged, and keeps ids unique |
| AtImportController.ImportAirtable | packages/nocodb/src/modules/jobs/at-import/at-import.controller.ts:28-33 | a direct import appends one `AtImport` job whose data equals the request body, returns that job's id and name, and touches only the queue chosen at construction |
| AtImportController.ImportAirtableIsListed | packages/nocodb/src/modules/jobs/at-import/at-import.controller.ts:29-33 | after a direct import, the `AtImport` listing of the active queue is the earlier listing followed by the new job carrying the body |
| AtImportController.FindSync | packages/nocodb/src/modules/jobs/at-import/at-import.controller.ts:40 | `find` yields nothing iff no job's `data.syncId` strictly equals the id; otherwise it yields the first such job |
| AtImportController.BaseUrl | packages/nocodb/src/modules/jobs/at-import/at-import.controller.ts:50-57 | in docker mode `baseURL` is `http://localhost:` followed by `PORT`, or `http://localhost:8080` when `PORT` is unset or empty; otherwise it is the request's site URL unchanged |
| AtImportController.BaseUrlIgnoresSiteInDocker | packages/nocodb/src/modules/jobs/at-import/at-import.controller.ts:55-57 | in docker mode the site URL has no influence on `baseURL`, which is always a loopback URL |
| AtImportController.TriggerPayloadPrecedence | packages/nocodb/src/modules/jobs/at-import/at-import.controller.ts:59-67 | the payload's keys are `syncId`, the five explicit keys and every detail key (details absent means none); `projectId`, `baseId`, `authToken = ""`, `baseURL` and `user` always win over the details; `syncId` is the route id unless the details carry one; other detail keys keep their values |
| AtImportController.GuardedDispatch | packages/nocodb/src/modules/jobs/at-import/at-import.controller.ts:39-44 | the trigger fails with "Sync already in progress" iff a listed job targets the sync id; on failure the queues are unchanged; on success exactly one `AtImport` job is appended to the active queue |
| AtImportController.TriggerSync | packages/nocodb/src/modules/jobs/at-import/at-import.controller.ts:38-69 | `triggerSync` as written: rejection iff a listed job targets the route id, with no change to the queues; otherwise exactly one appended `AtImport` job with the built payload, on the queue chosen at construction whatever the call-time environment |
| AtImportController.TriggerSyncEnqueuesPayload | packages/nocodb/src/modules/jobs/at-import/at-import.controller.ts:59-69 | a trigger with no matching listed job succeeds, and the new job carries the source's project and base ids, an empty auth token, the resolved `baseURL` and the user; it carries the route `syncId` when the details have none |
| AtImportController.AbortImport | packages/nocodb/src/modules/jobs/at-import/at-import.controller.ts:72-76 | abort returns `{}` and leaves both queues unchanged |
| AtImportController.GuardedDispatchKeepsDedup | packages/nocodb/src/modules/jobs/at-import/at-import.controller.ts:39-44 | when the listing is the active queue's `AtImport` jobs and the payload is keyed under the guarded id, at most one `AtImport` job per sync id remains the case |
| AtImportController.TriggerSyncBreaksDedup | packages/nocodb/src/modules/jobs/at-import/at-import.controller.ts:40-61 | as written, a details `syncId` naming a sync that already has a job lets a trigger for a different sync pass the guard and enqueue a second job for the first sync |
| AtImportController.TriggerSyncBreaksDedupExample | packages/nocodb/src/modules/jobs/at-import/at-import.controller.ts:59-61 | one concrete queue and source where the trigger succeeds and leaves two `AtImport` jobs for sync "a" |
| AtImportController.IntendedTriggerPayloadPrecedence | packages/nocodb/src/modules/jobs/at-import/at-import.controller.ts:59-67 | with the spread first, every explicit key, `syncId` included, overrides the details, and all other detail keys are kept |
| AtImportController.IntendedTriggerSync | packages/nocodb/src/modules/jobs/at-import/at-import.controller.ts:38-69 | the corrected trigger has the same guard, and on success appends one job with the corrected payload |
| AtImportController.IntendedTriggerSyncKeepsDedup | packages/nocodb/src/modules/jobs/at-import/at-import.controller.ts:39-67 | with the corrected payload, a trigger checked against the active queue's `AtImport` listing keeps at most one `AtImport` job per sync id, and the new job targets exactly the requested sync |
| ObjectLiteral.LastWriter | packages/nocodb/src/modules/jobs/at-import/at-import.controller.ts:59-67 | the position of the last member that writes a key: it writes the key, and no later member does; absent iff no member writes it |
| ObjectLiteral.EvalIsLastWriter | packages/nocodb/src/modules/jobs/at-import/at-import.controller.ts:59-67 | evaluating a literal left to right gives a key iff some member writes it, with the value written by the last such member |
| ObjectLiteral.EvalDecidedBy | packages/nocodb/src/modules/jobs/at-import/at-import.controller.ts:59-67 | a member that writes a key and is followed by no other writer of that key decides the key's value |
| ObjectLiteral.EvalKeys | packages/nocodb/src/modules/jobs/at-import/at-import.controller.ts:59-67 | an evaluated literal's keys are exactly the keys its members write |
| JobQueue.Add | packages/nocodb/src/modules/jobs/at-import/at-import.controller.ts:29 | `add` appends exactly one job with the given name and data under an id no listed job has, and keeps the store's ids unique |
| JobQueue.JobsOfType | packages/nocodb/src/modules/jobs/at-import/at-import.controller.ts:39 | the listing for a type contains exactly the jobs of that type, and nothing else |
| JobQueue.JobsOfTypeAppend | packages/nocodb/src/modules/jobs/at-import/at-import.controller.ts:29-39 | adding a job extends the listing of its own type by that job, and leaves other types' listings unchanged |

## Findings

| source | as written | input that shows it | evidently intended | confidence | as-written member | corrected member |
|---|---|---|---|---|---|---|
| packages/nocodb/src/modules/jobs/at-import/at-import.controller.ts:60-61 | `syncId: req.params.syncId` comes before `...(syncSource?.details \|\| {})`, so a details `syncId` replaces the route id. The guard at line 40 checks the route id, but the job is keyed under the details id. | The queue holds an `AtImport` job with `syncId: "a"`. Sync "b" is triggered, and its source details are `{ syncId: "a" }`. The guard passes, and a second job for "a" is enqueued. | `syncId` overrides the details, like the other explicit keys. Then every triggered job is keyed under the id the guard checked, and there is never more than one `AtImport` job per sync id. | medium, not executed | AtImportController.TriggerSyncBreaksDedup | AtImportController.IntendedTriggerSyncKeepsDedup |

`AtImportController.TriggerSync` follows the code's order. The corrected
`AtImportController.IntendedTriggerSync` differs only in where the spread
appears in the literal.

## Left out

- HTTP routing, decorators, guards and middleware: these are framework glue.
- Bull queue internals and the fallback `QueueService` are not part of this model. `add` is modelled as "append one job under the next id". Job execution, job status and retries are not modelled.
- `JobsService.jobList` is not part of this model. `TriggerSync` takes its result as an opaque snapshot. The dedup-invariant lemmas assume the snapshot is the active queue's `AtImport` jobs.
- `SyncSource.get` and `getUser` are persistence I/O. The source and its user are parameters. The path where no sync source is found is not modelled.
- `process.env` reads become an `Env` parameter. `NC_REDIS_URL` is read once, in `NewController`. `NC_DOCKER` and `PORT` are read per trigger, as in the code.
- Async/await and the check-then-act race between concurrent triggers are not modelled. Each call runs alone against a fixed snapshot.
- A rejected promise from `activeQueue.add` or `jobsService.jobList` (for example a Redis connection error) propagates unchanged and is not modelled.
- Non-object values of `details` or of the request body are not modelled. Spreading a string or an array would add index keys. `details` is either a plain object or null/undefined.
- JavaScript numbers are modelled as integers. The controller never does arithmetic on them.
- The `AtImport` tag's string value is defined outside this file, so it is modelled as an enumeration constant.
- A direct import can enqueue a body with any `syncId`. The dedup invariant is therefore only a property of the trigger path.
