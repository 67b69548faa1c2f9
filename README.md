# Container-consistency sidecar: reaper and event bootstrap

This project models two parts of a per-host agent sidecar.

- **Reaper** (`Reaper.dfy`, from `reaper/watcher.go`). This has two parts:
  - The orphan reaper runs on each metadata change. It drops the metadata container records of other hosts. Among this host's records, it takes those whose `io.rancher.container.uuid` label is present but differs from the record's UUID. It inspects each one. It force-removes it unless the inspect fails or the inspected name is `/rancher-agent`.
  - The duplicate-singleton guard lists the Docker containers, newest first. It collects the running ones with a non-empty uuid label whose service-name label is `network-services/metadata` or `network-services/metadata/dns`. For each service with more than one match, it stops the last (oldest) match with a zero timeout.
- **Event bootstrap** (`Events.dfy`, from `events/entry.go`). `Process` builds the routing table (`"start"` → binexec watcher, start handler, network-manager handler; `"die"` → the same network-manager handler). It creates and starts the event router. It then replays every listed container as a synthetic `start` event with `From = "-simulated-"`, pushed onto the router's listener in list order.

How the external pieces are modelled:

- The reaper's Docker client is the class `Reaper.DockerClient`. It answers from fixed outcomes: the container listing, a map from container ID to inspected name, and the sets of IDs whose remove or stop fails. It appends every call it receives to its `calls` field. These outcomes stay fixed for a whole pass: a container removed earlier in a pass still inspects successfully later in it, so two orphan records with the same ExternalId are each inspected, and each removed when its inspect allows it.
- The metadata client is an immutable snapshot of what `GetSelfHost` and `GetContainers` answer.
- Each method is proved against a pure function that gives the calls it issues: `OnChangeCalls`, `RemovalCalls`, and `StopCalls` of the IDs chosen by `StopTargets`. Lemmas then state which containers those calls touch.
- In the event bootstrap, the setup steps `NewDockerClient`, `NewEventRouter` and `ListContainers` are outcome oracles (`Events.DockerEnv`).
- The router is the class `Events.EventRouter`. Its listener channel is modelled as the sequence of events pushed onto it.
- Go reads a missing map key as `""`. `Reaper.Label` writes this out, because the guard relies on it.

Two details of the orphan reaper:

- A record without a uuid label is skipped, not treated as an orphan (reaper/watcher.go:74-77; `Reaper.UnlabelledRecordSkipped`).
- The uuid label is read from the metadata record's own labels, not from the Docker container.

## Model

| member | source | states |
|---|---|---|
| `Reaper.Watcher.OnChange` | reaper/watcher.go:59-85 | If GetSelfHost or GetContainers fails, that error is returned and no Docker call is made. Otherwise the pass issues exactly `OnChangeCalls` for the listed records and returns no error, whatever the removals did. |
| `Reaper.Watcher.RemoveContainer` | reaper/watcher.go:131-147 | Inspects the record's ExternalId. Then it issues one forced remove exactly when the inspect succeeds and the name is not `/rancher-agent`. Remove failures change nothing else. |
| `Reaper.Orphans` | reaper/watcher.go:70-78 | The records handed on are exactly those with HostUUID equal to the self host's UUID and a uuid label that is present and differs from their UUID. No more than the input. |
| `Reaper.OrphansCount` | reaper/watcher.go:70-81 | Each orphan record occurs among the orphans exactly as often as in the metadata list, and no other record occurs. So removeContainer is called exactly once per occurrence of an orphan. |
| `Reaper.DoomedCount` | reaper/watcher.go:70-81 | Each removable orphan occurs among the removed records exactly as often as in the metadata list, and no other record occurs. |
| `Reaper.Doomed` | reaper/watcher.go:70-81 | The records removed are exactly the orphans whose inspect succeeds under a name other than the agent's. They are a subset of the orphans. |
| `Reaper.RemovalCallsEffect` | reaper/watcher.go:131-143 | One removeContainer inspects its container exactly once. It removes that container once if it is removable, and otherwise not at all. |
| `Reaper.OnChangeInspectsEachOrphan` | reaper/watcher.go:70-81 | The inspected IDs of a pass are exactly the orphans' ExternalIds, in list order. So removeContainer is called once per orphan. |
| `Reaper.OnChangeRemovesExactlyDoomed` | reaper/watcher.go:70-81 | The removed IDs of a pass are exactly the ExternalIds of the removable orphans, in list order. A failed remove does not stop later containers. |
| `Reaper.OnChangeRemoveIff` | reaper/watcher.go:137-143 | A pass issues `Remove(id, force)` if and only if force is true and some orphan record with ExternalId `id` is removable. |
| `Reaper.OnChangeTouchesOnlyOrphans` | reaper/watcher.go:70-81 | Every call of a pass is an inspect or a remove. Each targets the ExternalId of a record on this host whose uuid label is present and differs from its UUID. |
| `Reaper.AgentNeverRemoved` | reaper/watcher.go:132-139 | An ID whose inspect fails or names `/rancher-agent` is never removed. |
| `Reaper.MismatchedRecordRemoved` | reaper/watcher.go:70-81 | A local record with UUID "a1" and label "a2", inspected as "/web-1", is inspected and then force-removed. |
| `Reaper.MismatchedAgentKept` | reaper/watcher.go:137-139 | The same record inspected as `/rancher-agent` is inspected only. |
| `Reaper.UnlabelledRecordSkipped` | reaper/watcher.go:74-77 | A local record without a uuid label causes no call at all. |
| `Reaper.MatchIds` | reaper/watcher.go:97-108 | An ID is collected for a service if and only if some running container with that ID has a non-empty uuid label and that service-name label. |
| `Reaper.MatchIdsKeepListOrder` | reaper/watcher.go:97-108 | The collected IDs keep list order: earlier entries come from earlier (newer) containers. |
| `Reaper.ServiceMatchesDisjoint` | reaper/watcher.go:102-107 | When container IDs are unique, no ID is collected both as metadata and as dns. |
| `Reaper.StopTargets` | reaper/watcher.go:110-118 | There is one target per service with more than one match, so at most two. Each target is a collected ID. The first target is the last collected metadata ID when there is more than one; the last target is the last collected dns ID when there is more than one. |
| `Reaper.TwoMatchesCollected` | reaper/watcher.go:97-118 | Two matching running containers of a service give more than one collected ID, so a stop is scheduled for that service. |
| `Reaper.AtMostOneMatchCollected` | reaper/watcher.go:97-118 | When at most one running container of a service matches, at most one ID is collected, so no stop is scheduled for that service. |
| `Reaper.StopTargetIsOldestMatch` | reaper/watcher.go:112-118 | When a service has more than one match, its target is the ID of its last (oldest) match in the newest-first list. A newer match of that service remains. |
| `Reaper.StopTargetsDistinct` | reaper/watcher.go:110-118 | When container IDs are unique, the two stop targets are different containers. |
| `Reaper.CheckMetadata` | reaper/watcher.go:87-129 | A failed list is returned and nothing is stopped. Otherwise the targets are stopped in order, metadata first, each with timeout 0. The pass returns no error, whatever the stops did. |
| `Reaper.OldestOfThreeStopped` | reaper/watcher.go:112-118 | Three running metadata instances [m3, m2, m1], newest first: only m1 is stopped. |
| `Reaper.DockerClient.ContainerInspect` | reaper/watcher.go:132-136 | Inspect succeeds exactly for known IDs and gives their name. It is recorded as one call. |
| `Reaper.DockerClient.ContainerRemove` | reaper/watcher.go:141-146 | A remove is recorded with its force flag. It fails exactly for the IDs configured to fail. |
| `Reaper.DockerClient.ContainerStop` | reaper/watcher.go:120-126 | A stop is recorded with its timeout. It fails exactly for the IDs configured to fail. |
| `Reaper.DockerClient.ContainerList` | reaper/watcher.go:88-93 | The listing outcome is returned and one list call is recorded. |
| `Events.HandlerTable` | events/entry.go:34-44 | The keys are exactly "start" and "die". "start" holds [binexec watcher, start handler, network-manager handler] in order. "die" holds only that same network-manager handler. |
| `Events.SimulatedEvents` | events/entry.go:59-66 | One event per listed container, in list order. Each has the container's ID, status "start" and From "-simulated-". |
| `Events.EventRouter.Start` | events/entry.go:50 | The router is marked started. |
| `Events.EventRouter.Push` | events/entry.go:65 | Only a started router accepts an event, which is appended to the listener. |
| `Events.DockerEventsProcessor.Process` | events/entry.go:28-69 | A client error is returned before any router exists. A router error is returned before anything is started. When both succeed, the router is built with that table and the pool size for both its buffer and its workers, and started. A listing error is returned after Start, with nothing replayed. Events are pushed only once the router has started. Otherwise the started router's listener is exactly the replay of the listing, and no error is returned. |
| `Events.Watch` | events/entry.go:13-20 | Watch fails exactly when one of the three setup steps fails. |
| `Events.ReplayTwoContainers` | events/entry.go:59-66 | Containers [c1 (exited), c2 (running)] replay as two synthetic start events, c1 first. |

## Left out

- `Watch` in `reaper/watcher.go` starts `c.OnChange(5, w.onChangeNoError)` and `watchMetadata` as goroutines. The metadata client's change notification and its scheduling are not modelled; each pass is modelled on its own.
- `watchMetadata` is a loop that never ends. It sleeps between passes using a backoff from a foreign library: minimum 1 s, factor 1.5, maximum 5 min. That library is not part of this model. Only one pass, `CheckMetadata`, is modelled.
- `recheckEvery` (5 minutes) is declared but not used in reaper/watcher.go, so it is not modelled.
- `onChangeNoError` only logs the error of `onChange`. Logging has no effect on behaviour and is not modelled.
- The Docker and metadata client transports and `context.Background()` are replaced by the outcome oracles described above.
- `NewDockerClient` and `NewEventRouter` are not modelled beyond their success or error. The router's worker pool, its channel semantics and dispatch order, and the handler implementations (binexec, network manager, start handler) are not part of this model either. Pushing onto the listener channel is an append to a sequence, so blocking on a full channel is not captured.
- `Reaper.ServiceMatchesDisjoint`, `Reaper.StopTargetsDistinct`: these assume that container IDs are unique within one Docker listing. The code itself does not check this.
