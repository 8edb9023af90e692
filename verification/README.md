# Unicron, modelled and proved in Dafny

This project models the stateful cores of Unicron and proves what they promise:

- **The agent's way to Central** (`edge/go-streamer`). Two bounded lanes, one pump per connection with a
  one-slot parking place for a failed critical message, reconnects, and the diff of log-collection plans that
  feeds the critical lane. `Transport` is the step machine of producers, pump and connection loop;
  `TransportSafety`, `TransportLedger` and `TransportRuns` hold its invariants and run theorems, and
  `TransportProgress` that what is undelivered can always be delivered;
  `UpstreamClients` is the client as an object whose methods perform steps of the machine. `Monitoring`,
  `LogPlans`, `Reconcile` and `TelemetryManagers` model what is monitored and what is announced; `Health` and
  `Debounce` the health callbacks and the debounced configuration; `Replica` puts all of it together into one
  statement about what Central will believe, and `ReplicaProgress` adds that it can always catch up. `CentralByName` and `CentralByNameRuns` ask the same of the table that
  Central really keeps, and `Duplicates` what two plans of one key lead to.
- **The appliance's self-update** (`ops/appliance/manager`). `DockerEngine` is an engine whose calls may fail;
  `Updater` is the saga of staging, hand-off, compensation and rollback; `UpdaterSafety`, `UpdaterOutcomes` and
  `UpdaterRuns` say where it leaves the engine, for every fault schedule, for single faults and over many jobs, and
  `UpdaterOverlaps` what two helpers do whose calls interleave; `ImageRefs`, `UpdateJobs` and `UpdateResults` follow
  the check for an update, the jobs and the images that containers end up with;
  `UpdateServices` holds the updater and its helper as objects.
- **Two log codecs** (`log_collection.go`): `Frames`, the parser of Docker's multiplexed log stream, and `Otlp`,
  the encoding of values as AnyValue.
- **The session cache** (`deps.py`): `SessionCache` is one worker's dictionary, `SessionStaleness` many workers
  before one shared store.
- **Two rewrites**: of generated `docker run` commands (`CommandTokens`, `CommandItems`, `CommandRewrites`,
  `CommandMeaning`, `CommandRewriters`) and of alert rules into fingerprints (`Fingerprint`).

`Wire` and `Strings` hold what several modules share.

Check everything with `dafny verify dfyconfig.toml`.

## How the code and its promises differ

The model follows the code. Where a promise fails, a lemma gives the case and another one the exact condition.

- Central keeps its table by container name, not by name and image. If an unavailable container comes back under
  another image and is still unavailable, the event that clears the old image comes last and hides the new report;
  and Central ignores events about a container that is monitored without an image
  (`CentralByName.NameTableFollowsIff`, `CentralByName.ImageSwapIsLost`, `CentralByName.BlankImageIsLost`).
- If two images of a name are monitored, both lead to plans of one key. Central is misinformed exactly if the last
  plan agrees with what was remembered while an earlier one does not (`Duplicates.MisreportedIffOverruled`,
  `Duplicates.TwoImagesMisreport`).
- The helper takes the engine's answer that a container is already running for a failed start, and then starts the
  other one. It is safe exactly if the container to be started is not running (`UpdaterSafety.HandoffIsSafeIff`).
  A failed stop leads to a state in which the next rollback does this (`UpdaterRuns.FailedStopThenRollback`), and of
  single faults it is the only one that does not leave the appliance settled (`UpdaterRuns.JobSettlesIff`).
- The job guard is released while the helper is still at work. A second job can leave both appliances running exactly
  if it is staged before the first helper has started the new container (`UpdaterOverlaps.OverlapBreaksIff`).
- If the helper cannot be created or started, the replacement is left behind and the rollback record names a
  container that does not exist (`UpdaterOutcomes.StageCompensates`); a rollback that rebuilt the saved container and
  then fails leaves the rebuilt one behind (`UpdaterOutcomes.RollbackCompensates`).
- A rollback whose saved container is gone rebuilds one from a saved reference. If that is the reference that is
  tracked for updates, as it is after the first update, it stands for the new image by then, and nothing is rolled
  back (`UpdateResults.RebuiltHasOldImageIff`). The next automatic check undoes a rollback
  exactly if the restored image is not the tracked one (`UpdateResults.RollbackLastsIff`,
  `UpdateResults.RollbackIsUpdatedAgain`).
- After an update the next check finds nothing to do, except if the tracked reference looks like a digest: then it
  has no latest form and the check fails (`UpdateResults.OneUpdateIsEnoughIff`, `ImageRefs.LatestStaysIff`).
- A container whose name contains a bar can be enabled but not disabled (`Monitoring.DisableUndoesEnableIff`).
- Two overlapping runs of the debounced callback may apply the older configuration last (`Debounce.OverlapCanLoseAnUpdate`);
  every order ends with the latest one exactly if no callback holds an older one (`Debounce.CurrentInEveryOrderIff`).
- A failed telemetry write counts twice as a write error (`TransportLedger.TicksAreErrors`).
- No stale session context is ever handed out: the lookup for a fresh one evicts it first
  (`SessionCache.StaleIsNeverFound`).
- Rewriting a command twice adds a second host entry exactly if the host name contains a colon
  (`CommandRewrites.SecondEntryIff`).
- Scopes with commas in their targets, and scopes with no target or one empty target, may share a fingerprint
  (`Fingerprint.ScopesCollide`, `Fingerprint.ScopesAlikeIff`).

## Model

| member | source | states |
|---|---|---|
| TransportRuns.CriticalLaneIsLosslessFifo | edge/go-streamer/upstream.go:292-385 | In every state of every run, the criticals written, then the one the pump holds, then the pending slot, then the queue are exactly the criticals accepted, in order |
| TransportRuns.SlotAndConnectionAreSafe | edge/go-streamer/upstream.go:271-279 | The pending slot is empty whenever the pump is about to fill it, a live pump always has a connection (so the branch without one is never taken), and neither queue exceeds its capacity |
| TransportRuns.BypassIsBounded | edge/go-streamer/upstream.go:299-335 | Between the acceptance of a critical message and its successful write at most one telemetry write completes, over all interleavings and reconnects |
| TransportRuns.CountersBalance | edge/go-streamer/upstream.go:338-368 | In every quiescent state the counters add up: queued against sent, held and failed for each lane, drops against their reasons, write errors against retries plus twice the failed telemetry writes |
| TransportRuns.ReceiverCatchesUp | edge/go-streamer/upstream.go:349-360 | For any receiver to whom a repeated message is harmless: what it received followed by the undelivered messages amounts to what was accepted, even if a write that reported failure did arrive |
| TransportRuns.RunIsSafe | edge/go-streamer/upstream.go:292-385 | Every state of every run satisfies the transport's whole invariant |
| TransportProgress.CanDeliver | edge/go-streamer/upstream.go:225-336 | From every state that the invariant admits, unless the agent was revoked, steps of the connection loop and the pump alone lead to a state in which nothing is queued or undelivered on either lane, after at most one renewal of the connection |
| TransportProgress.EnqueueIsDecided | edge/go-streamer/upstream.go:500-526 | Which way an enqueue can go: a critical message may be accepted if there is room and may time out in any case, telemetry is dropped exactly if its queue is full, an unknown lane always |
| TransportSafety.ShapeNext | edge/go-streamer/upstream.go:275-279 | Every step keeps one pump per connection, the slot's discipline, the lanes and the bounds |
| TransportSafety.UndeliveredNext | edge/go-streamer/upstream.go:299-385 | A step changes the undelivered criticals only by confirming the first or adding an accepted one at the end |
| TransportSafety.OvertakingNext | edge/go-streamer/upstream.go:307-325 | Every step keeps the allowance by which telemetry may still overtake each waiting critical message |
| TransportLedger.TicksAreErrors | edge/go-streamer/upstream.go:350-357 | The write-error counter counts a failed critical write once and a failed telemetry write twice |
| TransportLedger.TicksAreDrops | edge/go-streamer/upstream.go:446-461 | Drops by lane equal drops by reason plus drops for an unknown lane plus failed telemetry writes |
| TransportLedger.BalancedNext | edge/go-streamer/upstream.go:338-368 | Every step keeps each counter, together with the counts still owed for it, equal to what the history calls for |
| UpstreamClients.UpstreamClient.Enqueue | edge/go-streamer/upstream.go:500-526 | Performs exactly the producer steps for the lane: accepts when there is room, else drops by timeout or at once, an unknown lane always; returns whether it accepted |
| UpstreamClients.UpstreamClient.EnqueueCritical | edge/go-streamer/upstream.go:500-512 | A critical message waits while the queue is full and the pump takes turns; it is queued last as soon as there is room, and dropped only if the queue is still full when its time is up or the pump has stopped |
| UpstreamClients.UpstreamClient.RecordDrop | edge/go-streamer/upstream.go:446-461 | Counts a drop once under its lane and, for the four reasons that have a counter, once under its reason |
| UpstreamClients.UpstreamClient.TakePendingCritical | edge/go-streamer/upstream.go:376-385 | Empties the slot and returns what it held, as the pump's first step |
| UpstreamClients.UpstreamClient.WriteOne | edge/go-streamer/upstream.go:338-368 | Performs the steps of a write that succeeds, fails or finds no connection, and lives on exactly after a success |
| UpstreamClients.UpstreamClient.PumpTurn | edge/go-streamer/upstream.go:299-335 | One iteration of the pump is one series of steps of the machine: pending first, then critical, then either lane or a ping |
| UpstreamClients.UpstreamClient.WritePump | edge/go-streamer/upstream.go:292-336 | The pump runs until a write or ping fails, in as many iterations as it takes |
| UpstreamClients.UpstreamClient.RunSession | edge/go-streamer/upstream.go:271-285 | One connection from dial to the pump's end: afterwards there is no connection and no pump, and the loop goes on unless the agent was revoked |
| UpstreamClients.UpstreamClient.Run | edge/go-streamer/upstream.go:225-289 | Over any number of connections the client performs a run of the machine, keeps its invariant, and stops reconnecting exactly when some connection was revoked |
| UpstreamClients.EnqueueRuns | edge/go-streamer/upstream.go:500-526 | What the steps of an enqueue leave on queues and counters, case by case |
| UpstreamClients.EnqueueTicks | edge/go-streamer/upstream.go:446-526 | A full telemetry queue ticks the counters of dropped telemetry and of full queues, an expired timer those of dropped criticals and of timeouts, an unknown lane that of dropped telemetry, and an accepted message that of its lane |
| UpstreamClients.DropTicks | edge/go-streamer/upstream.go:446-461 | For each lane and reason, the counters that a drop ticks, each once |
| UpstreamClients.WriteOneRuns | edge/go-streamer/upstream.go:338-368 | What the steps of a write leave in slot, connection and counters, case by case |
| Monitoring.KeyRoundTrip | edge/go-streamer/telemetry_state.go:21-30 | Parsing a key's string gives the key back exactly if its name contains no bar |
| Monitoring.StringRoundTrip | edge/go-streamer/telemetry_state.go:21-30 | Printing a parsed string gives the string back exactly if it contains a bar |
| Monitoring.LastWriterWins | edge/go-streamer/telemetry_state.go:73-91 | After any run of toggles and syncs, the images monitored under a name are those that the last command about it asked for |
| Monitoring.MonitoredIffAsked | edge/go-streamer/telemetry_state.go:93-115 | A name is monitored exactly if the last command about it asked for some image |
| Monitoring.NamesStayUnique | edge/go-streamer/telemetry_state.go:73-164 | If no sync enables two images of one name, there is at most one key per name after any run of commands |
| Monitoring.LookupIffMonitored | edge/go-streamer/telemetry_state.go:128-153 | The lookup by name succeeds exactly if the name is monitored, and its answer is a stored key |
| Monitoring.StoredAlways | edge/go-streamer/telemetry_state.go:73-164 | Only enabled, parsable keys are ever stored |
| Monitoring.DisableUndoesEnableIff | edge/go-streamer/telemetry_state.go:73-91 | Disabling removes an enabled key exactly if its name contains no bar |
| Monitoring.SlashIsDropped | edge/go-streamer/telemetry_state.go:53-91 | A toggle of a name with the engine's leading slash does what a toggle of the name does, and monitors the name itself |
| Monitoring.BlankNameIsIgnored | edge/go-streamer/telemetry_state.go:73-79 | A toggle of a name that is blank but for the leading slash changes nothing |
| Monitoring.ListedNames | edge/go-streamer/telemetry_state.go:117-126 | Over unique names the listed keys have distinct names without bars |
| Monitoring.MonitoringState.SetEnabled | edge/go-streamer/telemetry_state.go:73-91 | Drops every key of the name and, when enabling, adds the normalised key |
| Monitoring.MonitoringState.IsMonitored | edge/go-streamer/telemetry_state.go:93-115 | True if the exact key is stored, or any key of the name |
| Monitoring.MonitoringState.KeyForName | edge/go-streamer/telemetry_state.go:128-153 | Answers with the one stored key of the name; without one, or with several, it finds nothing, for any order of traversal |
| Monitoring.MonitoringState.MonitoredKeys | edge/go-streamer/telemetry_state.go:117-126 | Lists the stored keys, each once, in any order |
| Monitoring.MonitoringState.ReplaceAll | edge/go-streamer/telemetry_state.go:155-164 | Keeps exactly the enabled entries of the new map |
| LogPlans.HealthyIffNoIssue | edge/go-streamer/log_collection.go:1030-1096 | Whatever an inspection yields, the plan is healthy exactly if it names no issue, and keeps the container's name |
| LogPlans.ModeIff | edge/go-streamer/log_collection.go:1070-1090 | A container's lines are pushed exactly if its driver is a local fluentd and push is enabled, and its file is tailed exactly if they are not pushed, the log path is not blank and a location can be read, which is then the path that is tailed |
| LogPlans.IssueIff | edge/go-streamer/log_collection.go:1036-1096 | Which of the three issues is reported exactly when, in terms of what was inspected |
| LogPlans.PushHelpsIff | edge/go-streamer/log_collection.go:1070-1096 | Enabling push never makes a healthy plan unavailable, and makes an unavailable one healthy exactly for a local fluentd without a readable file |
| LogPlans.PlanImage | edge/go-streamer/log_collection.go:1054-1061 | Plan and key carry the trimmed image that was inspected or, if there is none, the one that was asked for |
| LogPlans.PlanIdentity | edge/go-streamer/log_collection.go:1054-1064 | Name, id and TTY flag are those of the inspection, and what is remembered is healthy exactly without an issue |
| LogPlans.BuildLogCollectionPlan | edge/go-streamer/log_collection.go:337-347 | One plan per key, in order, each from its own inspection: pushed exactly if the driver is a local fluentd and push is enabled, and healthy exactly if pushed or with a readable file |
| LogPlans.PlansOfUniqueNames | edge/go-streamer/log_collection.go:337-347 | Plans of unique names have distinct keys and names, although inspection may replace the image in the key |
| Reconcile.EmittedIsDiff | edge/go-streamer/telemetry_manager.go:366-402 | With distinct plan keys the emitted events are exactly the changes of the public view, one per changed key, for any order in which the map is traversed |
| Reconcile.DiffUpdatesView | edge/go-streamer/telemetry_manager.go:366-402 | Folding the events of a diff turns a table that shows the old view into one that shows the new view |
| Reconcile.DiffOrderIsIrrelevant | edge/go-streamer/telemetry_manager.go:385-396 | Any permutation of the events is a diff too and leads to the same table |
| Reconcile.ReconcileUpdatesView | edge/go-streamer/telemetry_manager.go:366-402 | A reconcile brings any table that showed the old states to show the new ones |
| Duplicates.MisreportedIffOverruled | edge/go-streamer/telemetry_manager.go:366-402 | For any plans of the inspection, whether or not keys are repeated, a key that was shown right is shown wrong after the reconcile exactly if its last plan agrees with the remembered report while an earlier one does not |
| Duplicates.TwoImagesMisreport | edge/go-streamer/log_collection.go:337-347 | Two images of one name can be monitored, and inspecting the container twice, with its log file appearing in between, leaves Central with the first result |
| TelemetryManagers.TelemetryManager.HandleToggle | edge/go-streamer/telemetry_manager.go:194-226 | Applies the toggle to the monitored containers and restarts the debounce timer |
| TelemetryManagers.TelemetryManager.HandleSync | edge/go-streamer/telemetry_manager.go:228-256 | Replaces the monitored containers by the sync's enabled entries and restarts the debounce timer |
| TelemetryManagers.TelemetryManager.RebuildLogCollectionConfig | edge/go-streamer/telemetry_manager.go:353-364 | Remembers the states of the new plans; over unique names the events are the exact diff of the states |
| TelemetryManagers.TelemetryManager.ReconcileLogCollectionPlans | edge/go-streamer/telemetry_manager.go:366-402 | Remembers the new states; emits an event per changed plan in order, then one per vanished unavailable container in any order |
| TelemetryManagers.TelemetryManager.HandleHealthChange | edge/go-streamer/telemetry_manager.go:443-472 | Sets the health to the conjunction of what was read and reports it exactly if it changed |
| Health.HealthConverges | edge/go-streamer/telemetry_manager.go:443-472 | Whenever no callback is waiting or running, the last health is the conjunction of all current flags, although the flags are read one at a time while others change |
| Health.HealthIsReported | edge/go-streamer/telemetry_manager.go:443-472 | Once the flags stop changing, the callbacks end after a bounded number of steps in any order, and where they can go no further the last report is the conjunction of the flags |
| Health.FlagIsSet | edge/go-streamer/telemetry_supervisor.go:174-194 | Setting a flag changes that flag only, and a callback waits exactly if it has changed |
| Health.ReportsAlternate | edge/go-streamer/telemetry_manager.go:459-472 | The reports alternate, starting with true, and at most one callback holds the lock |
| Health.CyclesAlternate | edge/go-streamer/telemetry_supervisor.go:44-112 | However the process starts and exits, the callbacks of a supervisor alternate, two for every attempt that started the process |
| Health.ProcessSupervisor.SetHealthy | edge/go-streamer/telemetry_supervisor.go:174-194 | Sets the flag and calls back exactly if it changed |
| Health.ProcessSupervisor.Run | edge/go-streamer/telemetry_supervisor.go:44-112 | Calls back once up and once down for every attempt that started the process, and not for the others |
| Debounce.OneCallPerBurst | edge/go-streamer/telemetry_debounce.go:29-41 | For every timed run without a stop, the callback fires exactly at the ends of the maximal bursts, each the last trigger plus the delay; at the very instant of the firing the order of the two events decides whether the burst goes on |
| Debounce.LastTrigger | edge/go-streamer/telemetry_debounce.go:29-41 | Either the timer is set for the last trigger plus the delay, or the last event was its firing at that time |
| Debounce.NoUpdateIsLost | edge/go-streamer/telemetry_manager.go:322-335 | With callbacks that do not overlap, in every state the configuration is current, or a trigger, a timer or a callback that will apply the latest state is under way |
| Debounce.CurrentInEveryOrderIff | edge/go-streamer/telemetry_manager.go:322-335 | In any state: if no more commands come, the configuration ends at the latest state whatever the order of the remaining steps, exactly if no callback holds an older version and, when nothing is under way, the latest one is applied |
| Debounce.OverlapCanLoseAnUpdate | edge/go-streamer/telemetry_manager.go:202-211 | Two overlapping callbacks can leave an older configuration applied for good |
| Debounce.ConfigDebouncer.Trigger | edge/go-streamer/telemetry_debounce.go:29-41 | Replaces any pending timer by one that is due a full delay from now |
| Debounce.ConfigDebouncer.Stop | edge/go-streamer/telemetry_debounce.go:43-51 | Cancels the timer |
| Debounce.ConfigDebouncer.Play | edge/go-streamer/telemetry_debounce.go:29-51 | Over a timed sequence of events the calls and the timer are those that the specification derives from it |
| Replica.CentralBelievesTheAgent | edge/go-streamer/telemetry_manager.go:366-417 | In every state of every run: once all events of a reconcile are sent, what Central will believe about a key after the undelivered messages is the agent's view of it, unless the latest event about that key was dropped; and likewise for the health |
| ReplicaProgress.CentralCanCatchUp | edge/go-streamer/upstream.go:225-385 | From every state of every run, unless the agent was revoked, sending alone can lead to a state in which nothing is left to send, queued or undelivered, and what Central has received is the agent's view of every container but those whose latest event was dropped |
| ReplicaProgress.StaleIff | edge/go-streamer/telemetry_manager.go:404-417 | In every state of every run a key counts as stale exactly if the latest event about it was dropped at enqueue |
| ReplicaProgress.HealthStaleIff | edge/go-streamer/telemetry_manager.go:459-472 | In every state of every run the health counts as stale exactly if the latest report was dropped at enqueue |
| Replica.ReceiveIsIdempotent | edge/go-streamer/telemetry_manager.go:404-417 | A repeated message about a container or the health changes nothing |
| Replica.StateMessagesAreCritical | edge/go-streamer/upstream.go:435-444 | Both kinds of state message carry their own type, and that type is critical |
| Wire.LaneIff | edge/go-streamer/upstream.go:435-444 | Exactly six types of message are telemetry, and every other one is critical |
| CentralByName.NameTableFollowsIff | central/unicron/backend/app/routes/agent/ws_handler.py:565-628 | A table by stripped name alone follows a reconcile exactly unless an unavailable container's image was swapped and the new one is unavailable too, or the report changed and the key has no image |
| CentralByName.ImageSwapIsLost | central/unicron/backend/app/routes/agent/ws_handler.py:565-628 | If a container that cannot be inspected is monitored under another image, the table shows no issue although there is one |
| CentralByName.BlankImageIsLost | central/unicron/backend/app/routes/agent/ws_handler.py:565-577 | A container that is monitored without an image and cannot be inspected is shown without an issue |
| CentralByName.PlaceOf | central/unicron/backend/app/services/container_identity.py:10-19 | The entry of a name is what is left of it without white space around it and slashes before it |
| CentralByName.HeardIff | central/unicron/backend/app/routes/agent/ws_handler.py:565-573 | An event is heard exactly if there is more to its name than slashes and its image is not blank |
| CentralByNameRuns.CentralShowsTheEntry | central/unicron/backend/app/routes/agent/ws_handler.py:565-628 | In every state of every run between two reconciles: if since the start, or since the entry was right, no event about it was dropped and no reconcile lost its report, the table by name shows the agent's report once the undelivered messages have arrived |
| UpdaterSafety.JobIsSafe | ops/appliance/manager/updater.go:465-605 | For every fault schedule, an update or rollback with its hand-off never has two appliances running and never two containers of one name, in any engine along the way |
| UpdaterSafety.StageIsSafe | ops/appliance/manager/updater.go:538-605 | Staging starts no appliance, and hands over only to a stopped container other than the current one |
| UpdaterSafety.RollbackIsSafe | ops/appliance/manager/updater.go:465-536 | The same of a rollback, to the saved container or a rebuilt one |
| UpdaterSafety.HandoffIsSafe | ops/appliance/manager/update_handoff.go:22-57 | For every fault schedule the hand-off keeps the two apart and the names unique |
| UpdaterSafety.HandoffIsSafeIff | ops/appliance/manager/update_handoff.go:31-42 | If only one of the two may be running, the hand-off is safe under all fault schedules exactly if the one to be started is not the one |
| UpdaterSafety.HandoffToRunningContainer | ops/appliance/manager/update_handoff.go:35-42 | Handing over to a running container starts the other one as well, without any fault |
| UpdaterOutcomes.StageCompensates | ops/appliance/manager/updater.go:546-583 | Staging gets to the hand-off exactly if no call fails. After a single fault engine and state are as before exactly if it was not the helper's create or start; otherwise the stopped replacement is left over and the rollback record names no container |
| UpdaterOutcomes.SwapBackCompensates | ops/appliance/manager/updater.go:502-534 | Swapping back gets to the hand-off exactly if no call fails. After a single fault the engine and the rollback record are as before, and an error is recorded exactly if the helper failed |
| UpdaterOutcomes.TargetIff | ops/appliance/manager/updater.go:479-500 | A rollback goes to the saved container if that exists and its look-up does not fail; otherwise one is rebuilt if there is a saved configuration and neither call fails |
| UpdaterOutcomes.RollbackCompensates | ops/appliance/manager/updater.go:465-536 | A rollback that a single fault keeps from the hand-off leaves the engine as it was, unless it rebuilt a container that was gone and failed later: exactly then the rebuilt container is left over |
| UpdaterOutcomes.StopFails | ops/appliance/manager/update_handoff.go:31-34 | If the stop fails, nothing changes but the recorded error |
| UpdaterOutcomes.StartFails | ops/appliance/manager/update_handoff.go:35-42 | If only the replacement's start fails, the old container runs under the appliance name and the replacement is stopped under a failed name |
| UpdaterOutcomes.StartSucceeds | ops/appliance/manager/update_handoff.go:44-57 | Otherwise the replacement runs, the old container is stopped, and the image is recorded if it can be inspected |
| UpdaterOutcomes.SingleFaultLeavesOneRunning | ops/appliance/manager/update_handoff.go:22-57 | After any single fault in the hand-off exactly one of the two runs |
| UpdaterOutcomes.UpdatePairs | ops/appliance/manager/updater.go:567-575 | Without faults, an update makes the replacement run the new image with the old settings and saves the container it replaced |
| UpdaterOutcomes.RollbackSwaps | ops/appliance/manager/updater.go:465-536 | Without faults, a rollback makes the saved container run and saves the other one in its place |
| UpdaterOutcomes.RollbackUndoesUpdate | ops/appliance/manager/updater.go:465-583 | An update and a rollback restore the same container, image and name, and save the replacement |
| UpdaterOutcomes.RollbackIsAnInvolution | ops/appliance/manager/updater.go:511-518 | Two rollbacks return to the same active container with the same record of the other one |
| UpdaterOutcomes.RollbackRebuilds | ops/appliance/manager/updater.go:480-500 | If the saved container is gone, one created from the saved configuration, with its image reference, runs under the appliance name |
| UpdaterOutcomes.RollbackAfterFailedStop | ops/appliance/manager/update_handoff.go:31-42 | A rollback to the container that still runs after a failed stop leaves both running, without any further fault |
| UpdaterRuns.RunsStaySettled | ops/appliance/manager/updater.go:465-605 | After any run of jobs, each with at most one fault other than the helper's stop, exactly one appliance runs and owns the appliance name, and no engine along the way had two running or two of one name |
| UpdaterRuns.JobSettlesIff | ops/appliance/manager/updater.go:465-605 | A job that meets at most one fault leaves the appliance settled exactly if it does not get to the hand-off or the helper's stop succeeds |
| UpdaterRuns.FailedStopThenRollback | ops/appliance/manager/update_handoff.go:31-42 | From every settled appliance, an update whose only fault is the helper's stop and a rollback without faults leave two appliances running |
| UpdaterOverlaps.AloneIsHandoff | ops/appliance/manager/update_handoff.go:22-57 | The helper, taken one call at a time and left alone, performs the hand-off |
| UpdaterOverlaps.InterleaveIsSafe | ops/appliance/manager/update_handoff.go:22-57 | When the first helper has started its container, no order of the calls of both helpers starts a second one, for every fault schedule |
| UpdaterOverlaps.OverlapBreaksIff | ops/appliance/manager/updater.go:189-203 | For all jobs and without faults: if a second job is staged after n calls of the first helper, some order of the two helpers' calls leaves two appliances running exactly if the first helper has not started the new container, that is, n < 2 |
| UpdateResults.OneUpdateIsEnoughIff | ops/appliance/manager/updater.go:372-463 | After an update without faults the next check finds nothing to do and nothing wrong, exactly if the tracked image has an id and the tracked reference was configured or does not look like a digest |
| UpdateResults.RollbackLastsIff | ops/appliance/manager/updater.go:450-463 | After a rollback without faults, the next check and apply leave the restored container alone exactly if its image is the one that the tracked reference has in the registry |
| UpdateResults.RollbackIsUpdatedAgain | ops/appliance/manager/updater.go:345-370 | After an update and a rollback, all without faults, the next check finds the same update, and applying it replaces the restored container by the same image again |
| UpdateResults.RebuiltHasOldImageIff | ops/appliance/manager/updater.go:480-500 | If the saved container is gone after an update, the one that a rollback rebuilds has the old image exactly if its reference stood for that image and is not the one that is tracked; if it is the tracked one, the rebuilt container has the new image |
| UpdateResults.AppliesIff | ops/appliance/manager/updater.go:450-463 | Without faults applying gets to the hand-off exactly if the tracked image is another one than that of the current container; if not, the engine is as before |
| UpdateResults.UpdateIsFoundIff | ops/appliance/manager/updater.go:421-435 | For ids without surrounding space, a check finds an update, and applying stages it, exactly if the id of the image in use is empty or not that of the image in the registry |
| UpdateResults.FailedCheckStagesNothing | ops/appliance/manager/updater.go:410-448 | If the tracked image cannot be pulled or inspected, the check fails, an update found before is forgotten, nothing is staged and no container changes |
| UpdateResults.LocalImageHasNoSource | ops/appliance/manager/updater.go:394-408 | A check of an appliance that runs the default local image fetches nothing and records that there is no source of updates, without an error of the job |
| UpdateResults.Applied | ops/appliance/manager/updater.go:538-583 | After applying without faults, the new container runs the tracked image that was fetched, with the old settings, under the appliance name, and the old container is saved |
| ImageRefs.LatestStaysIff | ops/appliance/manager/updater.go:686-703 | The latest form of a latest form is itself, exactly if it does not look like a digest; otherwise there is none |
| ImageRefs.TrackedStaysIff | ops/appliance/manager/updater.go:641-646 | The same of the tracked reference, which stays as it is if it is configured |
| ImageRefs.LatestOfRepository | ops/appliance/manager/updater.go:686-703 | For a repository with any tag or none, its latest image is tracked, whether or not a registry's port is part of its name |
| ImageRefs.LatestOfDigest | ops/appliance/manager/updater.go:686-703 | The same for a reference by digest; an empty reference or a digest alone is not tracked |
| ImageRefs.ConfiguredIsTracked | ops/appliance/manager/updater.go:641-653 | A configured reference is tracked as it is and has a source |
| ImageRefs.LocalOnlyIff | ops/appliance/manager/updater.go:648-673 | Without a configured one, exactly the default local image has no source, with any tag or none |
| UpdateJobs.ServiceIsSafe | ops/appliance/manager/updater.go:607-632 | If every candidate for the current container is the one appliance that may run, no check, update or rollback, with its hand-off, starts a second one, for every fault schedule |
| UpdateJobs.CheckIsSafe | ops/appliance/manager/updater.go:372-435 | A check, whatever fails in it, changes no container and not the rollback record |
| UpdateJobs.JobIsRecorded | ops/appliance/manager/updater.go:173-187 | Every job gets to the hand-off, or records an error and a failed check, or was a check that found no source or came to an end without an error; an apply without a hand-off leaves no update pending |
| UpdateJobs.RefusedJob | ops/appliance/manager/updater.go:465-473 | A rollback with nothing to roll back to, or a job that finds no container, changes only the recorded error; the former makes no call |
| UpdateJobs.FirstFoundAnswers | ops/appliance/manager/updater.go:607-632 | The candidates are asked in turn, one call each, and the first one that exists and whose call does not fail is the current container |
| UpdateServices.UpdateService.CurrentContainer | ops/appliance/manager/updater.go:607-623 | Returns the first candidate that can be inspected |
| UpdateServices.UpdateService.BeginJob | ops/appliance/manager/updater.go:189-197 | Takes the job guard exactly if it is free |
| UpdateServices.UpdateService.StartHelper | ops/appliance/manager/updater.go:585-605 | Creates and starts the helper, and removes it if it does not start |
| UpdateServices.UpdateService.Stage | ops/appliance/manager/updater.go:538-554 | Performs the calls of staging, with their compensation, on engine and state |
| UpdateServices.UpdateService.SwapWithReplacement | ops/appliance/manager/updater.go:556-583 | Performs the two renames, records the rollback and starts the helper, or undoes what it did |
| UpdateServices.UpdateService.FindRollbackTarget | ops/appliance/manager/updater.go:479-500 | Finds the saved container or rebuilds one |
| UpdateServices.UpdateService.RollBackTo | ops/appliance/manager/updater.go:465-536 | Performs a rollback on engine and state |
| UpdateServices.UpdateService.SwapWithSaved | ops/appliance/manager/updater.go:502-536 | Performs the renames of a rollback, or undoes them and restores the previous record |
| UpdateServices.UpdateService.CheckForUpdate | ops/appliance/manager/updater.go:372-435 | Finds the current container, pulls and inspects the tracked image, and records whether it is another one, that there is no source, or that the check failed |
| UpdateServices.UpdateService.ApplyLatest | ops/appliance/manager/updater.go:450-463 | Checks, and stages the tracked image on the current container, looked up anew, exactly if the check found an update |
| UpdateServices.UpdateService.RunJob | ops/appliance/manager/updater.go:173-203 | Refuses a second job, performs a check, an update or a rollback, records the error of a failed one, and releases the guard |
| UpdateServices.RestoreAfterFailedHandoff | ops/appliance/manager/update_handoff.go:97-119 | Attempts all three repairs, whatever becomes of each |
| UpdateServices.RunUpdateHandoff | ops/appliance/manager/update_handoff.go:22-57 | Performs the hand-off on the engine and the state file |
| Frames.SplitInvertsEncoding | edge/go-streamer/log_collection.go:786-844 | Any frames, encoded and followed by any cut-off tail, are found again, and so is the tail |
| Frames.EncodingInvertsSplit | edge/go-streamer/log_collection.go:802-829 | Every stream of bytes is the encoding of the frames found in it followed by a cut-off tail |
| Frames.RowsShowVisibleFrames | edge/go-streamer/log_collection.go:829-842 | There is one row, in order, for every frame of at most 1 MiB that is not blank, with its trimmed payload, and labelled stdout exactly for stream 1, stderr exactly for stream 2, and not at all otherwise |
| Frames.ShownIff | edge/go-streamer/log_collection.go:807-833 | A frame of text in UTF-8 is shown exactly if it has at most 1 MiB and trimming white space leaves something of it |
| Frames.SpaceWidthIff | edge/go-streamer/log_collection.go:831 | A line begins with white space exactly if the character that its first bytes encode is white space, whatever follows |
| Frames.HiddenFramesAreSkipped | edge/go-streamer/log_collection.go:807-822 | Leaving out an empty, blank or oversized frame anywhere changes no other row |
| Frames.RowKeepsLine | edge/go-streamer/log_collection.go:846-858 | Time and message of a row make up its line, split at its first space, and there is a time exactly if the line has a space that is not its first character |
| Frames.ReadFramedSeedRows | edge/go-streamer/log_collection.go:786-844 | Returns the rows of the stream up to 10000, and an error exactly if the stream breaks off before the limit |
| Frames.ReadFrame | edge/go-streamer/log_collection.go:802-842 | One turn of the loop consumes exactly one frame and yields its row, if any |
| Frames.ReadEncoded | edge/go-streamer/log_collection.go:786-844 | Reading any framed stream with a cut-off tail yields a row for each of the first 10000 visible frames, with its text and its stream's label |
| Otlp.DecodeInvertsEncode | edge/go-streamer/log_collection.go:981-1020 | Decoding recovers every value, however nested and in whatever order maps are traversed, up to what the format does not distinguish |
| Otlp.EncodedAlikeIff | edge/go-streamer/log_collection.go:981-1020 | Two values may be encoded alike exactly if they have the same canonical form |
| Otlp.EncodeValue | edge/go-streamer/log_collection.go:981-1020 | Produces an encoding of the value |
| Otlp.EncodeObject | edge/go-streamer/log_collection.go:997-1006 | Lists every key of a map once, in any order, with its value's encoding |
| Otlp.EncodeArray | edge/go-streamer/log_collection.go:1007-1016 | Encodes the items in order |
| Otlp.IntRoundTrip | edge/go-streamer/log_collection.go:989-992 | A whole number is recovered from its decimal string, which has a sign only if it is negative and no leading zero |
| SessionCache.StoredIsFound | services/alert-engine/app/core/deps.py:86-102 | After a store at most 4096 entries remain, the stored one is among them, and nothing else is new |
| SessionCache.StoredKeeps | services/alert-engine/app/core/deps.py:95-102 | An entry that has not expired is lost exactly if it is the oldest of 4096 live ones and the stored key is new |
| SessionCache.StaleIsNeverFound | services/alert-engine/app/core/deps.py:267-270 | The lookup that accepts stale entries, coming right after one that does not, never finds any |
| SessionCache.LoadedIff | services/alert-engine/app/core/deps.py:69-83 | A load answers with a user exactly if an entry of the key holds it and is fresh, or stale and that is allowed; then the cache stays as it is |
| SessionCache.MissEvicts | services/alert-engine/app/core/deps.py:69-83 | A load without an answer evicts the entries of its key and no others |
| SessionCache.LoadAfterStore | services/alert-engine/app/core/deps.py:69-102 | What was stored is handed out as long as it is fresh, or stale if that is allowed, and no longer |
| SessionCache.L1Cache.Load | services/alert-engine/app/core/deps.py:69-83 | Returns a fresh entry, or a stale one if allowed, and evicts any other entry of the key |
| SessionCache.L1Cache.Store | services/alert-engine/app/core/deps.py:86-102 | Puts the entry in place; an overfull cache then loses its expired entries, and its oldest ones if need be |
| SessionStaleness.ServedIsYoung | services/alert-engine/app/core/deps.py:257-296 | In every run of many workers, a context served from a cache was confirmed by upstream for that cookie less than both lifetimes and two transfer delays ago; no stale context is ever at hand, and no worker holds more than 4096 |
| SessionStaleness.RefreshedIsServed | services/alert-engine/app/core/deps.py:257-296 | In every run, what a worker learned from upstream it hands out on its own for the lifetime, without a request, unless it restarts, stores another context for the cookie, or is full |
| SessionStaleness.AskServesIff | services/alert-engine/app/core/deps.py:257-270 | A request is answered with a user from the worker's own cache exactly if that holds a fresh entry of the user |
| SessionStaleness.AskMisses | services/alert-engine/app/core/deps.py:257-270 | A request that finds no fresh entry goes on without a stale one and answers nothing |
| SessionStaleness.WrittenIsServed | services/alert-engine/app/core/deps.py:141-177 | What was written to the shared store can be fetched by every worker until it expires and no longer, and the worker then serves and holds it |
| SessionStaleness.RefreshIsWritten | services/alert-engine/app/core/deps.py:141-177 | What upstream confirmed is on its way to the shared store exactly if that is enabled |
| SessionStaleness.NotWritten | services/alert-engine/app/core/deps.py:141-177 | A failed write and a discarded reading leave nothing behind, and a request that falls back is answered with nothing |
| SessionStaleness.NextKeeps | services/alert-engine/app/core/deps.py:141-177 | Every step of every worker keeps the ages of all copies bounded |
| CommandRewrites.RewriteKeepsMeaning | ops/dind/adapt_generated_agent_command.py:186-197 | A plain, valid command is rewritten to a plain, valid command of the same name that differs only in its three URLs, its host entry and its image |
| CommandMeaning.RewrittenCommand | ops/dind/adapt_generated_agent_command.py:97-197 | Part by part: loopback values of the three URLs get the new host and keep their port; the first entry for the host, or a new one after all others, is the host and the given address; all other entries stay in order; the last token is the given image; the rest stays |
| CommandMeaning.ValidIff | ops/dind/adapt_generated_agent_command.py:141-156 | A command is valid exactly if it is a docker run that ends in an image, its assignments can be read, the ten keys are assigned, the environment is production in the end and there is a name; what is wrong first is reported |
| CommandMeaning.AssignmentIff | ops/dind/adapt_generated_agent_command.py:60-80 | An assignment is a key that is not empty, the first equals sign and the value |
| CommandMeaning.FlagForms | ops/dind/adapt_generated_agent_command.py:60-94 | The three ways of writing an assignment are read alike, and so are the two of writing a name |
| CommandMeaning.AddressIsAdded | ops/dind/adapt_generated_agent_command.py:164-183 | A command without flags gets the flag for the host, with the address, before its image |
| CommandRewrites.EnvMapRewritten | ops/dind/adapt_generated_agent_command.py:109-138 | The environment keeps its keys, and all values but those of the three URLs |
| CommandRewrites.UrlIsMoved | ops/dind/adapt_generated_agent_command.py:97-106 | A loopback URL keeps its scheme, port, path and query and gets the new host; any other URL is left as it is |
| CommandRewrites.RewriteSucceedsIff | ops/dind/adapt_generated_agent_command.py:186-197 | A plain command is rewritten exactly if it is valid and its three URLs can be taken apart |
| CommandRewrites.RewriteTwiceIff | ops/dind/adapt_generated_agent_command.py:164-183 | Rewriting again changes nothing exactly if there is no colon in the host name |
| CommandRewrites.SecondEntryIff | ops/dind/adapt_generated_agent_command.py:164-183 | Whatever the URL library: a second rewriting adds a second entry for the host exactly if its name contains a colon, and otherwise leaves the entries as they are |
| CommandRewrites.ColonNeverSettles | ops/dind/adapt_generated_agent_command.py:164-183 | With a colon in the host name every rewriting, of whatever command, adds a token |
| CommandItems.ParsePlain | ops/dind/adapt_generated_agent_command.py:60-80 | A plain command is a list of flags with their values that ends in the image |
| CommandItems.AssignmentsOfItems | ops/dind/adapt_generated_agent_command.py:60-80 | The environment that is read is that of the items, or the first malformed one |
| CommandItems.NameOfItems | ops/dind/adapt_generated_agent_command.py:83-94 | The name that is read is the first one given |
| CommandItems.UrlPass | ops/dind/adapt_generated_agent_command.py:109-138 | Rewriting the URLs rewrites the environment items and no others |
| CommandItems.UpsertPass | ops/dind/adapt_generated_agent_command.py:164-183 | The first entry for the host is replaced, or one is put before the image |
| CommandRewriters.ReadEnvKeys | ops/dind/adapt_generated_agent_command.py:60-80 | Returns the map of all assignments, later ones overriding earlier ones, or the first error |
| CommandRewriters.ExtractContainerName | ops/dind/adapt_generated_agent_command.py:83-94 | Returns the first name, or an error |
| CommandRewriters.ValidateGeneratedCommand | ops/dind/adapt_generated_agent_command.py:141-156 | Accepts exactly the valid commands and returns their name |
| CommandRewriters.TokenList.RewriteCentralEnvUrls | ops/dind/adapt_generated_agent_command.py:109-138 | Rewrites the token list in place, or reports the first error |
| CommandRewriters.TokenList.UpsertAddHost | ops/dind/adapt_generated_agent_command.py:164-183 | Replaces or inserts the host entry in place |
| CommandRewriters.TokenList.RewriteGeneratedCommand | ops/dind/adapt_generated_agent_command.py:186-197 | Validates and rewrites the list in place and returns the container's name, or the first error |
| Fingerprint.SimilarIffDuplicate | services/alert-engine/app/routes/templates.py:207-219 | For an injective hash, types without a colon and targets without a comma, two rules are similar exactly if they are duplicates and, unless global, have a target |
| Fingerprint.ScopesAlikeIff | services/alert-engine/app/routes/templates.py:51-57 | Scopes are normalised alike exactly if they are the same up to order, or both have no target that is not empty |
| Fingerprint.ScopeForms | services/alert-engine/app/routes/templates.py:51-57 | All global rules have one scope, and any other scope is the type, a colon and the joined targets in order |
| Fingerprint.OverlappingIff | services/alert-engine/app/routes/templates.py:166-181 | Scopes overlap exactly if one is global, or both are of one type and share a target |
| Fingerprint.FingerprintForgetsOrder | services/alert-engine/app/routes/templates.py:149-163 | The order of targets and actions does not matter, whatever they contain |
| Fingerprint.FingerprintsAlikeIff | services/alert-engine/app/routes/templates.py:149-163 | Rules have equal fingerprint data exactly if they are duplicates or differ only in an empty target |
| Fingerprint.ScopesCollide | services/alert-engine/app/routes/templates.py:51-57 | A comma in a target, a colon in a type, or a single empty target makes different scopes look alike |
| Fingerprint.NormalizeActions | services/alert-engine/app/routes/templates.py:94-105 | The result holds the same action types, each as often, in ascending order |
| Fingerprint.FindSimilarRule | services/alert-engine/app/routes/templates.py:184-219 | Returns the first similar rule, and nothing exactly if there is none |
| Fingerprint.FindDuplicate | services/alert-engine/app/routes/templates.py:184-219 | Finds a rule exactly if the new rule duplicates an existing one |

## Left out

- Sockets, TLS and the WebSocket library: a write succeeds or fails as one step; what a connection loses after a write was reported as successful is not modelled.
- JSON text, log output and file writes: persisted state is a value, and replacing a file is atomic.
- Counters wrapping around at 64 bits, and the clamps on queue sizes and timeouts.
- The acknowledgement of a toggle, fast log tailing, the plan cache, batches from Fluent Bit and the terminal form of log history.
- A failing write of the configuration in the debounced callback, which leaves the reconcile undone until the next trigger.
- Two overlapping reconciles: a reconcile sends its events before the next one begins.
- UpstreamClients.UpstreamClient.Run: the object performs one interleaving that the caller describes turn by turn; all interleavings are covered by the machine in `Transport`.
- UpstreamClients.UpstreamClient.Enqueue: decides by the room there is now; a critical enqueue that waits for room is `EnqueueCritical`, in which the time to wait is given in turns of the pump.
- Debounce.ConfigDebouncer.Play: time is given with the events instead of being read from a clock.
- The calls by which a second job is staged: they are made between two calls of the first helper, not interleaved with them.
- The name of an entry at Central if the state has an empty name, and names of nothing but slashes.
- Fault schedules of the Docker engine in which a failing call nevertheless has its effect.
- UpdateServices.UpdateService.CheckForUpdate: a missing engine socket is a look-up in which every call fails; the times and image ids that the state keeps for display are not modelled, nor is what clients are shown of it.
- The helper's settings, which it takes over from the container it replaces, and the image id by which it is created. Creating a container from an image that is not on the machine is a failing call.
- Container names are taken as made unique by the clock; their truncation and clean-up, and the host name that a replacement's settings may lose, are not modelled.
- The message of an error, of which only its presence is kept.
- Frames.ReadFramedSeedRows: lengths are read as on a 64-bit machine, where they are never negative; the clean-up of the time text, and the current time for rows without one, are not modelled.
- Otlp.DecodeInvertsEncode: numbers are mathematical; infinities and not-a-number, which JSON cannot carry, are left out, as is the text of the JSON.
- The refresh lock of the session cache, which only affects how often upstream is asked, and the HTTP client behind it.
- SessionStaleness.ServedIsYoung: clocks may differ between workers but run at the same speed.
- CommandRewrites.RewriteTwiceIff: the URL library is not part of this model; what it must satisfy is the predicate `Lawful`, the round trip of taking apart a loopback URL that was put together with the new host.
- CommandRewrites.RewriteKeepsMeaning: commands in which a value begins with a dash, or the image is the value of a flag, are left out, as in them the host entry may become the value of another flag.
- Splitting the command text into tokens, quoting them again, and the commands that remove the old container and its volume.
- Fingerprint.SimilarIffDuplicate: the trigger configuration is a value that is already normalised, and the hash is injective although it is cut to 16 digits.
- Certificates, password hashing, the alert pipeline, the web frontend and all request routing.
