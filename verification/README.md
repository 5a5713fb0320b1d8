# Proofs about the etalbaas control and data planes

This project models the stateful parts of etalbaas and proves what they promise over every input, run or
interleaving. Each part is a step machine or a class beside the specification functions its methods are proved
against; lemmas then state what the part promises about those functions.

- **Change data capture** (`EventIdentity`, `Pgoutput`, `CdcHandler`, `EventEncoding`, `JetStream`,
  `Replication`, `CdcProtocol`, `ChangeLog`).
  The pod's streaming loop consumes WAL frames, publishes each row change under a deterministic event ID and reports a
  flush position. `CdcProtocol` runs it against a PostgreSQL slot and a JetStream stream, with crashes anywhere, status
  updates lost, delayed or reordered, and publishes that are stored but report an error. The hypotheses are stated on
  the change log: frames in commit order, and a server that resumes after exactly the transactions whose commit ends
  at or before the confirmed position (sections 55.4, 55.5 and 55.9 of the PostgreSQL 16 documentation). An event
  with no JSON form (section 6 of RFC 8259 has no number for NaN or infinity) or with a subject the NATS client
  refuses cannot be sent at all; the frontier of a log is the first frame with such a change, or its end.
- **Trigger compilation and routing** (`Subjects`, `Triggers`, `Routing`, `Consumers`). API triggers become stored JSON, a
  Function resource and JetStream filters; routing relates those filters to the subjects of both publishers and to the
  streams. `Consumers` follows them to the server, which refuses a consumer two of whose filters overlap.
- **Function reconciler** (`FunctionResource`, `FunctionBuilds`, `BuildRuns`, `FunctionObjects`). Build passes are cut at every API
  call and interleaved with other workers, spec edits, other writers and job completions; the objects a pass leaves
  in the cluster are a function of the spec and of the API's answers.
- **Event history** (`Base64Url`, `Cursor`, `Calendar`, `EventHistory`). Keyset pages over a table that changes between
  requests, down to the text of the page token (section 5 of RFC 4648, section 5.6 of RFC 3339).
- **Pool cache and rate limiter** (`PoolManager`, `PoolProtocol`, `RateLimit`).
- **Sidecar** (`Sidecar`, `Backoff`). Delivery of one message to the function, acknowledgement, redelivery, and
  the 64-bit arithmetic of the pause between attempts.
- **Function table** (`FunctionTable`). Validation, merging and races of create, update, delete and status sync.
- **Token keys** (`JwtKeys`, `JwtSecrets`). RSA keys as JSON Web Keys (sections 2 and 6.3 of RFC 7518) and the four
  Secrets that hold them and what they sign.

Some promises one would expect do not hold of the code as it stands. Each is stated with the exact condition under
which it does hold:

- Delivery is exactly once if and only if, up to the frontier, no two changes of a transaction share a WAL start
  position and no frame ends at or past the commit of a later change (`CdcProtocol.ExactlyOnceIff`).
- Delivery can complete if and only if every change can be sent (`CdcProtocol.DeliveryCompletesIff`): one insert of
  `'NaN'::float8`, or into a table with a space in its name, blocks its log for ever (`CdcProtocol.OneInsertBlocks`).
- A database trigger receives the table it names if and only if the name has no dot, star, angle bracket or space
  (`Routing.OwnTableReceived`); a bucket trigger receives its own bucket alone if and only if it does not name a
  wildcard (`Routing.OwnBucketAloneIff`).
- The server takes a function's filters if and only if no two of its database triggers ask for the same operation of
  one table, none repeats an operation, and its storage filters do not overlap (`Consumers.AcceptedIff`); a consumer
  keeps its old filters when all its triggers compile to none (`Consumers.ConsumerMatchesIff`).
- The rate limiter is a sliding window only for limits up to one; the tight bound is 2 max(1, limit) - 1
  (`RateLimit.SlidingIff`, `RateLimit.BoundAttained`).
- A pass that completes leaves what the spec asks for if and only if every removal of a stale object took effect, since
  errors of removals are dropped (`FunctionObjects.CompletedMatchesIff`); a function that becomes external-GPU keeps
  its autoscalers and gets its route deleted and recreated at each pass (`FunctionObjects.ExternalPass`).
- A function's current generation can be built if and only if its job name is free or held by its own unfailed job
  (`BuildRuns.BuildableIff`). Among the project IDs the platform issues, only generations of one function can share a
  job name, exactly if their 32-bit hashes collide (`BuildRuns.IssuedNamesMeetIff`); whatever the hash, one of the
  first 16^8 + 1 generations of every function comes to that (`BuildRuns.SomeGenerationNeverBuilds`).
- The limit on concurrent builds holds if and only if one worker runs, provided its counts are up to date
  (`BuildRuns.LimitKeptIff`); with a cache that lags there is no bound (`BuildRuns.LaggingCountsUnbounded`).
- The limit of functions per project holds if and only if calls do not overlap (`FunctionTable.LimitKeptIff`); of two
  overlapping updates the later erases the earlier unless `FunctionTable.Spared` holds
  (`FunctionTable.OverlappingUpdatesIff`).
- The pause between attempts is the intended one for attempts up to 33 and eight later ones
  (`Backoff.DelayCorrectIff`).
- Deleting the private key Secret breaks its derived Secrets unless the same key is drawn again
  (`JwtSecrets.DeletedKeyDiverges`).
- A creation in flight during Close leaves an open pool in the closed manager (`PoolProtocol.CreationOutlivesClose`).

## Model

| member | source | states |
|---|---|---|
| EventIdentity.BuildEventIDInjective | services/cdc-pod/internal/replication/handler.go:142-145 | Event IDs are equal exactly for equal project, LSN and transaction, for project IDs of any spelling, dashes included. |
| EventIdentity.KnownEventID | services/cdc-pod/internal/replication/handler.go:142-145 | A concrete ID: the position as two upper-case hexadecimal halves, the transaction in decimal. |
| CdcHandler.Handler.HandleRelationMessage | services/cdc-pod/internal/replication/handler.go:45-52 | Remembers the relation under its id and leaves the transaction as it was. |
| CdcHandler.Handler.HandleBeginMessage | services/cdc-pod/internal/replication/handler.go:55-58 | Sets the current transaction and timestamp and keeps the relations. |
| CdcHandler.Handler.HandleInsertMessage | services/cdc-pod/internal/replication/handler.go:61-81 | Yields an event exactly for a known relation: named INSERT, with the remembered transaction and time, no old row, and the new tuple as new row; changes nothing. |
| CdcHandler.Handler.HandleUpdateMessage | services/cdc-pod/internal/replication/handler.go:84-113 | Yields an event exactly for a known relation: named UPDATE, the old tuple as old row if one was sent and the new tuple as new row; changes nothing. |
| CdcHandler.Handler.HandleDeleteMessage | services/cdc-pod/internal/replication/handler.go:116-140 | Yields an event exactly for a known relation: named DELETE, the old tuple as old row if one was sent and no new row; changes nothing. |
| CdcHandler.Handler.DecodeTuple | services/cdc-pod/internal/replication/handler.go:148-172 | The loop over columns computes the decoded row, surplus columns ignored. |
| CdcHandler.DecodedPrefixMeaning | services/cdc-pod/internal/replication/handler.go:148-172 | A name is in the row exactly if a column of that name was sent with a value, and the last such column decides it. |
| CdcHandler.EventTells | services/cdc-pod/internal/replication/handler.go:61-172 | What the event of a change holds, field by field: ID text, project, table, operation by message kind, commit time, which rows there are, and per column null, typed text or bytes by the kind of the last column sent of that name. |
| JetStream.Stream.PublishMsg | services/cdc-pod/internal/publisher/nats.go:29-49 | Stores the message unless its Nats-Msg-Id is known or the server refused it; the caller sees success only for acknowledged publishes. |
| Replication.Replicator.Publish | services/cdc-pod/internal/publisher/nats.go:29-58 | Publishes the event under its subject with its event ID as deduplication key, or fails with the stream unchanged if the event has no JSON form, is too large, or has a subject the client refuses. |
| EventEncoding.TablePublishableIff | services/cdc-pod/internal/publisher/nats.go:51-58 | With a dot-free, space-free project ID the subject of a change can be published exactly if its table name has no white space and no empty token. |
| Replication.Replicator.SendStandbyStatus | services/cdc-pod/internal/replication/replicator.go:295-304 | Appends exactly one report of the given position. |
| Replication.Replicator.HandleWALData | services/cdc-pod/internal/replication/replicator.go:237-292 | Memory, stream and success after a frame, for every message kind and for events that cannot be sent, equal the specification of one frame. |
| Replication.FrameMeans | services/cdc-pod/internal/replication/replicator.go:237-292 | What a frame comes to by kind: unparsable frames and changes of unknown tables fail and change nothing; a change is told by one message and succeeds exactly if acknowledged; only Relation and Begin are remembered. |
| Replication.Replicator.StreamLoop | services/cdc-pod/internal/replication/replicator.go:145-234 | The loop's exit, reports, memory and stream equal the run of the specified turns, for every script of the environment. |
| Replication.TurnShape | services/cdc-pod/internal/replication/replicator.go:155-233 | Only a frame handled without error moves the flush position, to the larger of it and the frame's end; any other turn leaves memory, positions and stream alone. |
| Replication.TurnReports | services/cdc-pod/internal/replication/replicator.go:145-234 | A turn reports nothing but the flushed position it started or ended with, at most twice. |
| Replication.EndPositionIsMaximum | services/cdc-pod/internal/replication/replicator.go:205-215 | The position kept is the maximum of the start and all ends of frames received. |
| Replication.ReportIsEndOfReceived | services/cdc-pod/internal/replication/replicator.go:145-234 | The position reported in any turn is the maximum of the start position and the ends of exactly the frames received by then, and all of those were handled without error. |
| Replication.FlushPosition | services/cdc-pod/internal/replication/replicator.go:145-234 | On every path, shutdown included, reports are such positions, never decrease, and never exceed the flushed position. |
| Replication.TurnTicks | services/cdc-pod/internal/replication/replicator.go:145-234 | A turn that keeps the loop running reports the old position if a keepalive asked and the new one exactly if its clock reading is past the due time; the next due time is a configured pause later. |
| Replication.TurnStops | services/cdc-pod/internal/replication/replicator.go:155-203 | A turn stops the loop in good order exactly on cancellation, with one report, and fails it exactly on a lost connection, a server error, a bad frame or an unhandled frame, with none. |
| Replication.ReportsWhenDue | services/cdc-pod/internal/replication/replicator.go:172-233 | Over runs, the reports of a turn are the end of all frames before it if asked, and the end of all frames so far exactly if the due time is past. |
| Replication.DueTime | services/cdc-pod/internal/replication/replicator.go:152-233 | Over runs, the due time is one pause after the start, or after the clock reading that followed the last report. |
| Replication.StopReports | services/cdc-pod/internal/replication/replicator.go:155-188 | A loop that is shut down reports last the end of all frames received before the turn that stops it. |
| Replication.StoppedSomewhere | services/cdc-pod/internal/replication/replicator.go:155-188 | A loop stopped in good order was shut down by such a turn. |
| CdcProtocol.AgreesNext | services/cdc-pod/internal/replication/replicator.go:237-292 | From the begin of any transaction on, a fresh handler knows the same transaction and relations as an uninterrupted one. |
| CdcProtocol.SameEvent | services/cdc-pod/internal/replication/handler.go:55-145 | A replayed change is rebuilt with the same event, ID included, by any incarnation. |
| CdcProtocol.IdealIdsUnique | services/cdc-pod/internal/replication/handler.go:142-145 | As far as changes are distinct the ideal log never repeats a deduplication key. |
| CdcProtocol.TurnKeeps | services/cdc-pod/internal/replication/replicator.go:145-292 | One turn of the loop keeps the protocol invariant, whatever arrives and however the broker answers. |
| CdcProtocol.RunKeeps | services/cdc-pod/internal/replication/replicator.go:95-292 | Every run of crashes, restarts, turns and confirmations keeps the protocol invariant. |
| CdcProtocol.InvariantIsSafe | services/cdc-pod/internal/replication/replicator.go:95-292 | The invariant gives safety: the stream is a prefix of the ideal log, everything the slot has confirmed is stored, and so is everything before the pod's cursor. |
| CdcProtocol.ExactlyOnceIff | services/cdc-pod/internal/replication/replicator.go:95-292 | Every run is safe (stream a prefix of the ideal log in commit order, nothing confirmed but unstored) if and only if, up to the frontier, changes are distinct and positions in order. |
| CdcProtocol.CollidingChangesLoseOne | services/cdc-pod/internal/replication/handler.go:142-145 | Two changes before the frontier with one deduplication key: a run exists whose stream misses the second. |
| CdcProtocol.EarlyPositionLosesChange | services/cdc-pod/internal/replication/replicator.go:205-215 | A frame that ends past the commit of a later change, at most the frontier's: a run exists that confirms the change without storing it. |
| CdcProtocol.StreamStaysBelowFrontier | services/cdc-pod/internal/replication/replicator.go:205-234 | With distinct changes and positions in order, no run stores anything from the first change that cannot be sent on. |
| CdcProtocol.DeliveryReachesFrontier | services/cdc-pod/internal/replication/replicator.go:38-234 | With distinct changes and positions in order, from every reachable state one undisturbed incarnation makes the stream equal to the ideal log up to the frontier. |
| CdcProtocol.DeliveryCompletesIff | services/cdc-pod/internal/replication/replicator.go:38-234 | With distinct changes and positions in order up to the frontier, from every reachable state some continuation stores the whole ideal log if and only if every change can be sent. |
| CdcProtocol.OneInsertBlocks | services/cdc-pod/internal/replication/handler.go:188-191 | One insert of a non-finite number, or into a table with a space, leaves the stream empty in every run, though the log is well formed, distinct and in order. |
| CdcProtocol.NanNeverDelivered | services/cdc-pod/internal/publisher/nats.go:32-35 | In particular 'NaN'::float8 is never delivered. |
| ChangeLog.IdealTells | services/cdc-pod/internal/replication/replicator.go:237-292 | The message of every change in the ideal stream, read off the change log: subject by kind, project and table, key, transaction and time of its own Begin, table as its own transaction last described it, and rows column by column. |
| ChangeLog.StoredTells | services/cdc-pod/internal/replication/replicator.go:95-292 | In every run the message at place i of the stream tells, in that sense, the change with i changes before it. |
| Triggers.TriggersFromProto | services/function/internal/handler/function_converter.go:89-122 | Converts every trigger in order, or fails if one has no config. |
| Triggers.TriggerSpecRoundTrip | pkg/k8s/function_crd.go:305-343 | The untyped tree sent to Kubernetes reads back as the same trigger, omitted empty fields included. |
| Triggers.TreeNames | pkg/k8s/function_crd.go:305-343 | The tree holds kind, table, operations, bucket and events under the operator's own field names, a block exactly for the config that is set. |
| Triggers.BuildFilterSubjects | operator/internal/natsadmin/admin.go:40-56 | The nested loops yield one filter per operation, or the wildcard filter for an empty list, in order. |
| Triggers.BuildStorageFilters | operator/internal/controller/function_controller.go:533-544 | The nested loops yield one storage filter per trigger and event, in order. |
| Triggers.AnyEventTrigger | operator/internal/resources/function_autoscale.go:217-239 | Finds out whether some trigger is a database or storage trigger with its config. |
| Subjects.TokensOfCompose | services/cdc-pod/internal/publisher/nats.go:54-58 | A composed subject or filter splits into the tokens of its prefix, operation, project and name. |
| Routing.StagesPreserveTriggers | services/function/internal/service/crd_converter.go:79-141 | Between the API and the operator no stage drops, adds or reorders a trigger, and every field of it arrives under its kind. |
| Routing.RoutesDatabaseChange | operator/internal/controller/function_controller.go:518-551 | A row change of any table matches the compiled filters if and only if some API trigger names it, dots, stars, angle brackets and spaces read as underscores, with that operation in any case or an empty list. |
| Routing.OwnTableReceived | operator/internal/natsadmin/admin.go:40-65 | A trigger on all operations receives its own table exactly if sanitizing leaves the name alone. |
| Routing.RoutesStorageEvent | operator/internal/controller/function_controller.go:532-562 | An event of any bucket with a dot-free name matches the compiled filters if and only if some trigger names that bucket or a wildcard, with that event or a wildcard; no assumption on the triggers. |
| Routing.OwnBucketAloneIff | services/storage/internal/service/validation.go:9-23 | Over all bucket names the storage service accepts, a trigger receives exactly the events of the bucket it names if and only if that is not a wildcard. |
| Routing.PublishersStayInStream | operator/internal/natsadmin/admin.go:69-96 | With dot-free project IDs a subject of either publisher matches the subjects of a project's stream exactly for its own project. |
| Routing.FilterContained | operator/internal/natsadmin/admin.go:40-96 | Every subject a filter matches belongs to its project's stream if and only if the operation token is aligned. |
| Routing.CompiledFiltersContained | operator/internal/controller/function_controller.go:518-551 | All filters compiled for a function stay inside its own project's stream if and only if every storage event among its triggers is aligned. |
| Consumers.NatsAdmin.EnsureConsumer | operator/internal/natsadmin/admin.go:115-147 | Server and success afterwards, for every answer: nothing for an empty list, an error for a missing stream or overlapping filters, else the consumer's filters are set. |
| Consumers.NatsAdmin.DeleteConsumer | operator/internal/natsadmin/admin.go:150-156 | Removes the consumer and no other; one that is not there counts as removed. |
| Consumers.ReconcileNATSConsumer | operator/internal/controller/function_controller.go:499-551 | Server and success after the stage, for every answer and without an admin: deletes the consumer without event triggers, else ensures it with database filters followed by storage filters. |
| Consumers.CollideIff | operator/internal/natsadmin/admin.go:129-147 | The server's token test for overlap holds exactly if some subject matches both filters. |
| Consumers.AcceptedIff | operator/internal/natsadmin/admin.go:40-56 | The compiled filters are accepted if and only if the database triggers are apart and the storage filters do not overlap. |
| Consumers.ConsumerMatchesIff | operator/internal/natsadmin/admin.go:115-147 | With every call answered the consumer ends with the compiled filters exactly if it had them, has no event trigger, or they are some and the server takes them; the stage succeeds without that exactly when they are none and old ones exist. |
| Consumers.OthersUntouched | operator/internal/natsadmin/admin.go:23-31 | Under any answers the consumer of every other function, also of one with the same name in another project, stays. |
| Consumers.EmptiedTriggerKeepsConsumer | operator/internal/natsadmin/admin.go:115-118 | A concrete trigger list for which the old subscription stays and the stage succeeds. |
| Consumers.RepeatedTableRefused | operator/internal/natsadmin/admin.go:129-147 | Two triggers that share an operation of one table: the stage fails and changes nothing, whatever is answered. |
| Consumers.PassSubscribes | operator/internal/controller/function_controller.go:518-551 | After an accepted pass the consumer receives a row change if and only if some API trigger names it. |
| RateLimit.ProjectRateLimiter.Allow | services/function/internal/gpuinvoke/ratelimit.go:31-50 | The decision and the whole window map after a request equal the specification, limits of zero or less included. |
| RateLimit.ProjectsIndependent | services/function/internal/gpuinvoke/ratelimit.go:31-50 | A project's decisions are those of a limiter fed only its own requests. |
| RateLimit.AcceptedBound | services/function/internal/gpuinvoke/ratelimit.go:31-50 | For any trace in time order, a closed span of one interval holds at most 2 max(1, limit) - 1 accepted requests of a project. |
| RateLimit.BoundAttained | services/function/internal/gpuinvoke/ratelimit.go:31-50 | For every positive limit a trace attains that bound. |
| RateLimit.RefusalJustified | services/function/internal/gpuinvoke/ratelimit.go:31-50 | A refusal implies at least the limit accepted within the preceding interval. |
| RateLimit.SlidingIff | services/function/internal/gpuinvoke/ratelimit.go:31-50 | The limiter keeps a sliding-window promise if and only if the limit is at most one. |
| PoolManager.Manager.Lookup | services/storage/internal/pool/manager.go:55-74 | Finds the project's pool and marks it used; leaves all other entries alone. |
| PoolManager.Manager.Insert | services/storage/internal/pool/manager.go:83-85 | Puts the new pool under its project. |
| PoolManager.Manager.EvictIdle | services/storage/internal/pool/manager.go:217-229 | Removes and closes exactly the entries idle for more than half an hour. |
| PoolManager.Manager.Close | services/storage/internal/pool/manager.go:136-148 | Removes and closes every cached pool, once. |
| PoolProtocol.NextKeeps | services/storage/internal/pool/manager.go:54-93 | Every step of every caller, eviction and close keeps the cache invariant. |
| PoolProtocol.EveryInterleavingSafe | services/storage/internal/pool/manager.go:54-93 | In every interleaving cached pools are open and their project's; open pools are cached or held by the one creator of their project; a project has at most one open pool; publishing never overwrites an entry. |
| PoolProtocol.HitIsOpen | services/storage/internal/pool/manager.go:54-61 | A pool the fast path hands out is open and belongs to the project. |
| PoolProtocol.HitEvictedIff | services/storage/internal/pool/manager.go:217-229 | A pool handed out and not used again is closed by an eviction exactly if more than the idle time has passed, else still open and cached. |
| PoolProtocol.PublishedEvictedIff | services/storage/internal/pool/manager.go:83-93 | So is a freshly published pool: the half hour starts with its publication. |
| PoolProtocol.FlightHandsOut | services/storage/internal/pool/manager.go:65-93 | When a flight ends its leader and everyone waiting get its one result, a pool created for that project or none, and nobody else moves. |
| PoolProtocol.CloseLeavesHeldPools | services/storage/internal/pool/manager.go:136-148 | Close empties the cache and leaves open exactly the pools in-flight creators hold. |
| PoolProtocol.CreationOutlivesClose | services/storage/internal/pool/manager.go:66-88 | A creation that straddles Close publishes an open pool into the closed manager. |
| PoolProtocol.CreatorHolds | services/storage/internal/pool/manager.go:66-88 | A run that brings a caller to hold an unpublished pool exists. |
| FunctionBuilds.FindBuildJob | operator/internal/controller/function_controller.go:334-382 | The loop over a generation's jobs yields the verdict of the first finished one, else running or none. |
| FunctionBuilds.CountRunning | operator/internal/controller/function_controller.go:385-407 | The loop counts the jobs that neither succeeded nor failed. |
| FunctionBuilds.Reconciler.UpdateStatus | operator/internal/controller/function_controller.go:790-806 | Writes the status and nothing else if the copy is current, else conflicts and writes nothing. |
| FunctionBuilds.Reconciler.ReconcileBuild | operator/internal/controller/function_controller.go:269-434 | Every path through an uninterrupted build pass, over job lists that may lag, is a run of the step machine; on a current copy its outcome follows from the listed jobs: the first that ended decides between this generation's image and a failure, unfinished ones mean Building, none means at most one new job. |
| FunctionBuilds.Reconciler.AdmitAndCreate | operator/internal/controller/function_controller.go:384-433 | The tail of the pass: over the limit nothing changes, else the job is seen to. |
| FunctionBuilds.Reconciler.CreateBuildJob | operator/internal/controller/function_controller.go:409-433 | With a valid source and a free name exactly one job is added, named and labelled for the generation, and Building reported; else nothing changes. |
| FunctionBuilds.StepKeeps | operator/internal/controller/function_controller.go:58-182 | Every step of a pass on a copy that may be stale keeps the reconciler's invariant. |
| FunctionBuilds.NextKeeps | operator/internal/controller/function_controller.go:58-182 | So does every action of users, other writers and jobs; functions' generations and observed generations never go back, jobs keep their labels and verdicts. |
| FunctionBuilds.EveryRunHasProvenance | operator/internal/controller/function_controller.go:110-130 | As long as functions are not deleted, in every reachable state, lagging job lists included, observedGeneration is at most generation; a reported image was built by a succeeded job of observedGeneration; a Deployment's image was built for the generation its pod spec was rendered from. |
| FunctionBuilds.BuildsWhenBehind | operator/internal/controller/function_controller.go:110-116 | In reachable states a pass builds exactly if observedGeneration is behind; the second half of the condition adds nothing. |
| FunctionBuilds.ReportsAreTrue | operator/internal/controller/function_controller.go:110-130 | In every reachable state Ready means the reported generation was built and has its image, a reported build failure means phase Failed, no image and a failed job of that generation, and a running build means Building or Failed. |
| FunctionBuilds.VerdictReports | operator/internal/controller/function_controller.go:326-382 | The status a pass reports for a list of jobs, by the first that ended, or Building if none did. |
| FunctionBuilds.GateLets | operator/internal/controller/function_controller.go:82-123 | A pass goes on exactly for the right namespace, an existing project, an allowed GPU and a build or image to see to; violations are reported as failures with the rest of the status kept. |
| FunctionBuilds.JobsAreChecked | operator/internal/controller/function_controller.go:82-130 | In every run jobs are only made for generations that passed namespace, GPU, Dockerfile and source checks and were not built. |
| FunctionBuilds.DeploysWhat | operator/internal/controller/function_controller.go:436-471 | In every run a pass deploys the reported image for what runs in the cluster, and removes the Deployment of what does not. |
| FunctionBuilds.FailuresAreReported | operator/internal/controller/function_controller.go:274-282 | A bad Dockerfile or an object that cannot be brought about becomes phase Failed, build and observedGeneration kept. |
| FunctionBuilds.ReadyWhen | operator/internal/controller/function_controller.go:701-727 | In every run the phase turns Ready only with the Deployment there, a replica ready if it is a light deployment, or nothing to deploy. |
| FunctionBuilds.OneJobPerGeneration | operator/internal/controller/function_controller.go:409-422 | As long as the function is not deleted, over any run, by any number of workers with lagging lists, at most one job is created per function and generation. |
| FunctionBuilds.FailedBuildStays | operator/internal/controller/function_controller.go:354-365 | As long as the function is not deleted, a failed job stays failed and stays the only job of its generation in every continuation. |
| FunctionBuilds.CountIsExact | operator/internal/controller/function_controller.go:385-407 | Whatever order the API lists jobs in, the limit check counts exactly the project's unfinished jobs. |
| FunctionBuilds.BuildsWithinLimit | operator/internal/controller/function_controller.go:384-422 | With n reconcile workers whose counts are up to date a project never has more than limit + n - 1 unfinished builds. |
| FunctionBuilds.ImageIdentifiesGeneration | operator/internal/build/kaniko.go:209-216 | For a given function, images of different generations have different references. |
| BuildRuns.JobNamesMeetIff | operator/internal/build/kaniko.go:96-128 | Job names coincide exactly if project and function join with a dash to the same text and the hashes are equal; within one generation the text decides. |
| BuildRuns.IssuedNamesMeetIff | services/project/internal/service/project_service.go:433-445 | For dash-free project IDs names coincide exactly for one project and function, with equal hashes of the two generations. |
| BuildRuns.TakenNameNeverBuilds | operator/internal/controller/function_controller.go:409-422 | A generation whose job name is held by any other job, of the same function too, or by its own failed job, is built in no continuation. |
| BuildRuns.BuildableIff | operator/internal/controller/function_controller.go:58-434 | From a reachable state the current generation of a function that passes every check can be built if and only if its job name is free or held by its own unfailed job; one worker with up-to-date lists then builds it without any edit. |
| BuildRuns.SomeGenerationNeverBuilds | operator/internal/build/kaniko.go:462-465 | For every hash of eight hexadecimal digits and every function, a run of one worker from the start comes to a current generation that no continuation builds. |
| BuildRuns.LimitAttained | operator/internal/controller/function_controller.go:384-422 | For every number n of workers a run from the start with up-to-date counts ends with limit + n - 1 unfinished builds. |
| BuildRuns.LimitKeptIff | operator/internal/controller/function_controller.go:384-422 | With up-to-date counts the limit holds over every run if and only if one worker runs. |
| BuildRuns.LaggingCountsUnbounded | operator/internal/controller/function_controller.go:385-407 | With counts from a cache that lags, one worker can come to any number of unfinished builds. |
| FunctionObjects.FunctionCluster.CreateOrUpdate | operator/internal/controller/function_controller.go:679-699 | Creates the object or updates what the operator manages of it, under every answer of the API. |
| FunctionObjects.FunctionCluster.DeleteStale | operator/internal/controller/function_controller.go:613-664 | Removes the object if found and removable, and hides every error. |
| FunctionObjects.FunctionCluster.ReconcileWorkload | operator/internal/controller/function_controller.go:439-471 | Objects and error after the workload stage, for every spec and answers. |
| FunctionObjects.FunctionCluster.ReconcileFunctionService | operator/internal/controller/function_controller.go:475-495 | Objects and error after the service stage. |
| FunctionObjects.FunctionCluster.ReconcileAutoscaling | operator/internal/controller/function_controller.go:566-610 | Objects and error after the autoscaling stage. |
| FunctionObjects.FunctionCluster.ReconcileFunctionHttpRoute | operator/internal/controller/function_controller.go:668-676 | Objects and error after the route stage. |
| FunctionObjects.FunctionCluster.Reconcile | operator/internal/controller/function_controller.go:126-182 | Objects and outcome of a whole pass equal the specified pass, early exits included. |
| FunctionObjects.CompletedPass | operator/internal/controller/function_controller.go:126-182 | A completed pass brings each wanted object to its wanted content keeping the rest of it, and removes an unwanted one exactly if a removal took effect. |
| FunctionObjects.CompletedMatchesIff | operator/internal/controller/function_controller.go:566-610 | A completed pass leaves exactly what the spec asks for if and only if each object no longer asked for met an effective removal. |
| FunctionObjects.Converges | operator/internal/controller/function_controller.go:126-182 | With every call answered a pass completes and leaves exactly the objects of the current spec, from any cluster state. |
| FunctionObjects.HistoryIndependent | operator/internal/controller/function_controller.go:126-182 | From any two cluster states it leaves the same objects. |
| FunctionObjects.SecondPassChangesNothing | operator/internal/controller/function_controller.go:126-182 | A second pass changes nothing, not even the parts the operator does not manage. |
| FunctionObjects.MatchedShape | operator/internal/resources/function_autoscale.go:38-214 | What a spec asks for has none of the six objects for a job, and for a deployment its Deployment, Service, route and exactly one autoscaler, chosen by kind and triggers. |
| FunctionObjects.CompletedSays | operator/internal/resources/function_autoscale.go:38-214 | The objects a completed pass of a deployment leaves, setting by setting: image, replicas, a sidecar exactly with event triggers and an image, fetching from the consumer kept for this function; one autoscaler with given or default bounds, the queue scaler on that same consumer; host and path of scaler and route. |
| FunctionObjects.CompletedRoutes | operator/internal/controller/function_controller.go:132-146 | A completed external-GPU pass leaves the invoker route with this host and path. |
| FunctionObjects.WhyIncomplete | operator/internal/controller/function_controller.go:126-182 | A pass that does not complete names the stage at fault; it is only requeued for a conflict over autoscalers or route. |
| FunctionObjects.WantedAgree | operator/internal/resources/function_workload.go:169-190 | A light deployment starts with the replicas its HPA has as minimum, at least one; scaler and route share host and path. |
| FunctionObjects.ExternalLeavesAutoscalers | operator/internal/controller/function_controller.go:132-146 | An external-GPU pass leaves every autoscaler as it was, whatever is answered. |
| FunctionObjects.ExternalPass | operator/internal/controller/function_controller.go:132-146 | With every call answered it leaves the invoker route, newly created each time, and the old autoscalers; the route alone exactly if there were none. |
| Base64Url.RoundTrip | services/event/internal/handler/event_converter.go:140-149 | Decoding an encoded text gives its bytes back, and its length is four letters for three bytes rounded up. |
| Base64Url.KnownTexts | services/event/internal/handler/event_converter.go:140-149 | The vectors of section 10 of RFC 4648 without padding, and both letters of the URL-safe alphabet. |
| Cursor.TimeRoundTrip | services/event/internal/handler/event_converter.go:140-160 | Every time of years 0 to 9999 is read back from its RFC 3339 text, nanoseconds and zone included. |
| Cursor.KnownTime | services/event/internal/handler/event_converter.go:138-143 | A concrete time with fraction and zone in the form of section 5.6 of RFC 3339. |
| Cursor.UuidRoundTrip | services/event/internal/handler/event_converter.go:140-165 | Every UUID is read back from its canonical text. |
| Cursor.CursorRoundTrip | services/event/internal/handler/event_converter.go:138-166 | A page token gives back its time and id, and is at most 96 characters long, under the limit of 256. |
| Cursor.CursorsDiffer | services/event/internal/handler/event_converter.go:138-143 | Different positions have different tokens. |
| Cursor.LengthRefusedIff | services/event/internal/handler/event_converter.go:145-150 | A token is refused for its length exactly above 256 characters. |
| Calendar.InstantOrders | services/event/internal/store/query.sql.go:147-153 | Instants order the times of one zone as their dates and clocks do, leap years included. |
| EventHistory.EventRecordsToProto | services/event/internal/handler/event_converter.go:87-102 | Converts all rows or fails on the first unreadable one; the token is that of the last row exactly if there is more. |
| EventHistory.ListEventHistory | services/event/internal/handler/event_handler.go:42-83 | Bad page sizes and tokens are refused; otherwise the page is cut from the answer to the query with one row more. |
| EventHistory.LookAheadFits | services/event/internal/service/event_service.go:60-65 | A request means as many rows as it asks for up to 100, or 20 by default, and is refused exactly if negative; the clamps at 100 and 101 never drop the look-ahead row. |
| EventHistory.AnswerUnique | services/event/internal/store/query.sql.go:141-154 | The query text determines its answer: same rows, same order. |
| EventHistory.PageShape | services/event/internal/handler/event_handler.go:71-79 | A page has a token exactly if the answer had the look-ahead row, and the token resumes after its last row. |
| EventHistory.PageShows | services/event/internal/handler/event_handler.go:71-79 | A page is the answer's first rows up to the size the request means, with a token exactly if there were more. |
| EventHistory.AnswersFit | services/event/internal/store/query.sql.go:141-154 | An answer holds rows of the project, function, status and times asked for that are older than the cursor, newest first, and misses only older rows of a full answer. |
| EventHistory.ListingDescends | services/event/internal/store/query.sql.go:141-154 | Over a table that changes between pages, a listing's keys strictly descend from page to page. |
| EventHistory.ListingCovers | services/event/internal/handler/event_handler.go:42-83 | A row present and matching at every request is returned by a listing followed to its end. |
| EventHistory.ExactlyOnce | services/event/internal/handler/event_handler.go:42-83 | No key is returned twice, and every row that matched throughout is returned at exactly one position. |
| EventHistory.ListingEnds | services/event/internal/store/query.sql.go:141-154 | With nothing inserted under the cursor a listing makes at most one request more than the rows it returns, which are no more than were eligible at the start. |
| Sidecar.Consumer.ProcessMessage | services/nats-sidecar/internal/consumer/consumer.go:72-124 | Posts, pauses, acks and naks of one delivery, for every cancellation, reply and retry limit. |
| Sidecar.DeliveryFacts | services/nats-sidecar/internal/consumer/consumer.go:72-124 | At most maxRetries + 1 unchanged posts; an ack is attempted exactly after a 2xx to the last post, a nak exactly when every attempt failed, never both. |
| Sidecar.PostsBounded | operator/internal/natsadmin/admin.go:120-127 | With three deliveries an event is posted at most 3 (maxRetries + 1) times, each time with the message's own data, its id unless empty, and the type its subject names. |
| Sidecar.SettledWasAnswered | services/nats-sidecar/internal/consumer/consumer.go:102-108 | A message the server counts as acknowledged was answered 2xx. |
| Sidecar.EventTypes | services/nats-sidecar/internal/consumer/consumer.go:126-138 | The type header tells the two publishers' subjects apart for all projects, tables and buckets. |
| Backoff.DelayCorrectIff | services/nats-sidecar/internal/consumer/consumer.go:140-152 | The 64-bit pause is min(2^attempt, 10) seconds if and only if the attempt is at most 33 or one of eight later ones; the others do not wait at all. |
| FunctionTable.ValidateTriggers | services/function/internal/service/function_service.go:561-578 | The loop accepts exactly readable lists of the two supported types. |
| FunctionTable.CreateValidIff | services/function/internal/service/function_service.go:512-612 | A request to create passes validation exactly if name, kind, mode, runtime, triggers, inline size and time limit are within the documented bounds. |
| FunctionTable.UpdateValidIff | services/function/internal/service/function_service.go:320-356 | An update passes exactly if the row as it would be is within them. |
| FunctionTable.FunctionService.CreateFunction | services/function/internal/service/function_service.go:128-200 | The refusal, in the order of the checks, or the inserted row with its timeout defaulted; nothing else changes. |
| FunctionTable.FunctionService.UpdateFunction | services/function/internal/service/function_service.go:299-365 | The refusal, or the row replaced by its validated merge. |
| FunctionTable.UpdateTakesEffect | services/function/internal/service/function_service.go:368-409 | An update sets what it names, keeps the rest and never touches project, name, kind or status. |
| FunctionTable.MergesCompose | services/function/internal/service/function_service.go:368-409 | Two updates in sequence are one update with the later settings on top. |
| FunctionTable.OverlappingUpdatesIff | services/function/internal/service/function_service.go:299-365 | Two updates that read the same row end as if run in sequence exactly if the second rewrites nothing the first changed. |
| FunctionTable.EveryRunValid | services/function/internal/service/function_service.go:128-365 | In every interleaving every stored row passes the whole validation, names are unique per project, rows keep project, name and kind, and deleted rows are never written. |
| FunctionTable.StoredRowsPlain | services/function/internal/service/function_service.go:128-365 | In every interleaving every stored row is within those bounds, with a positive time limit of at most 30 seconds when light and an hour when heavy without a GPU. |
| FunctionTable.UsedNamesStayUsed | deploy/migrations/meta/000001_initial.up.sql:117 | A name once used in a project, even by a deleted function, stays taken. |
| FunctionTable.FunctionsWithinLimit | services/function/internal/service/function_service.go:161-170 | With n concurrent calls a project has at most ten + n - 1 live functions. |
| FunctionTable.LimitAttained | services/function/internal/service/function_service.go:161-170 | For every number n of concurrent calls that function names suffice for, a run from the empty table ends with ten + n - 1 live functions. |
| FunctionTable.LimitKeptIff | services/function/internal/service/function_service.go:161-170 | The limit of ten holds over every run if and only if calls do not overlap. |
| JwtKeys.IntegerRoundTrip | operator/internal/resources/jwtkeys.go:49-57 | Integers survive their base64url form, padded or not. |
| JwtKeys.PrivateKeyRoundTrip | operator/internal/resources/jwtkeys.go:62-225 | Parsing a stored JWK set gives back modulus, exponents and primes, in either JSON shape. |
| JwtKeys.PublicKeyRoundTrip | operator/internal/resources/jwtkeys.go:85-95 | The verification key reads back as the public key. |
| JwtSecrets.ProjectSecrets.EnsureVerificationKey | operator/internal/controller/project_controller.go:579-609 | Store and success after the stage, under every answer. |
| JwtSecrets.ProjectSecrets.EnsureRoleKeySecret | operator/internal/controller/project_controller.go:611-668 | Store and success after one role's stage: a token without end or with thirty days left is kept, any other is deleted and one of the role for 365 days signed; no other Secret changes. |
| JwtSecrets.ProjectSecrets.ReconcileJwtKeys | operator/internal/controller/project_controller.go:509-577 | Store and success after a whole pass, cut at any call. |
| JwtSecrets.PassKeeps | operator/internal/controller/project_controller.go:509-648 | A pass cut anywhere keeps the store consistent and never replaces a stored key. |
| JwtSecrets.EveryRunConsistent | operator/internal/controller/project_controller.go:509-648 | Over every run of passes and outside deletions of derived Secrets, all derived Secrets come from the one stored key, which never changes. |
| JwtSecrets.ConsistentTokensAccepted | operator/internal/controller/project_controller.go:579-648 | Then PostgREST's key accepts every stored token. |
| JwtSecrets.SuccessfulPass | operator/internal/controller/project_controller.go:509-648 | After a successful pass all four Secrets exist; kept ones are unchanged, new ones come from the key used. |
| JwtSecrets.TokensKeptOrIssued | operator/internal/controller/project_controller.go:611-668 | A successful pass keeps each token that lasts thirty days and has replaced each other one by one of its role, signed with the stored key, ending 365 days after its claims were built. |
| JwtSecrets.TokensHaveThirtyDays | operator/internal/controller/project_controller.go:611-668 | After a successful pass both tokens can be read and have no end or one at least thirty days, in nanoseconds, after they were looked at, unless the clock went back by 335 days. |
| JwtSecrets.SuccessIff | operator/internal/controller/project_controller.go:509-648 | A pass succeeds exactly if it has a key that can be read or made and every call it makes is answered. |
| JwtSecrets.SuccessConsistentIff | operator/internal/controller/project_controller.go:509-648 | From any store, a successful pass leaves a consistent one exactly if what it kept came from the key it used. |
| JwtSecrets.DeletedKeyDiverges | operator/internal/controller/project_controller.go:532-558 | After deletion of the private key Secret a successful pass is consistent exactly if the same key is drawn again. |
| JwtSecrets.UnreadableKeyStops | operator/internal/controller/project_controller.go:516-531 | A key Secret that cannot be read stops every pass before it changes anything. |

## Left out

- CdcProtocol.ExactlyOnceIff: JetStream remembers every deduplication key for ever; a replay later than its deduplication window, and the stream's age and size limits, are not modelled.
- CdcHandler.Handler.DecodeTuple: the conversion of a column's text by type is a function of bytes and type that is not spelled out.
- Replication.Replicator.StreamLoop: creation of the slot and of the publication, connection set-up and plain logging are not modelled; the loop runs over a finite script of what it receives.
- Triggers.TriggersFromProto: JSON is a faithful tree; letter case is folded for ASCII only.
- Replication.Replicator.Publish: the broker's payload limit is an uninterpreted condition on the event; the subject rule of the client is no white space and no empty token.
- Consumers.ConsumerMatchesIff: the server refuses lists for overlap and for a missing stream only; its check of filters against the stream's subjects and its validation of their spelling are not modelled.
- PoolProtocol.EveryInterleavingSafe: reading credentials and opening connections are one step that succeeds or fails; the select of a caller's own cancellation is not modelled.
- FunctionBuilds.EveryRunHasProvenance: deletion of a function with its finalizer and jobs is not modelled, so jobs live for ever and a recreated function, whose generations start again, is not covered; the source and Dockerfile ConfigMaps, which all generations of a function share, are not part of what an image is built from.
- FunctionBuilds.Reconciler.ReconcileBuild: validation of Dockerfile, source and GPU config, and the hash in names, are uninterpreted functions.
- FunctionObjects.FunctionCluster.Reconcile: of each object only what depends on the function is kept; probes, security contexts, resources and environment are not. The three GPU access objects besides the route are one answer.
- EventHistory.ListEventHistory: ownership of the project, parsing of ids and time bounds in the request, and database errors are not modelled.
- Cursor.CursorRoundTrip: times are read in exact RFC 3339 form and UUIDs in canonical form; the more lenient inputs Go accepts, and line breaks in base64, are not modelled.
- Sidecar.Consumer.ProcessMessage: the fetch loop around it and the time a redelivery takes are not modelled.
- FunctionTable.EveryRunValid: name and display name lengths count characters where the code counts bytes; the best-effort write of the Function resource after a row is not modelled.
- JwtSecrets.EveryRunConsistent: passes of one project do not overlap; signatures are modelled by who signed, and RSA generation, SHA-256 and JSON text are not modelled.
- HTTP triggers, retry policies, trigger filters and key prefixes are carried but nothing routes by them.
- Project provisioning, GPU dispatch, the dashboard, configuration and health checks are not part of this model.
