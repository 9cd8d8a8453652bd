# Verified model of the Runspace coordination core

This project models the parts of Runspace in which several parties have to agree on
state over time, and proves what they keep. It covers seven components.

- **Realtime delivery**: the hub with its per-workspace history and bounded subscriber
  channels (`HubModel`, `HubService`), the replay scan over the durable stream and the
  path of a connecting client (`Replayer`), the browser's reconnecting socket
  (`RealtimeClient`), all of them together over any number of connections (`Delivery`), and
  what becomes of a client that is too slow (`Recovery`).
- **Run lifecycle**: the transition table (`RunStates`), the mock agent with its goroutine,
  lock and output channel (`MockAgent`), the run service over it (`Runs`), and the IDs of
  output events (`EventIDs`).
- **Channels and secrets**: the forest of channels with inherited repositories and
  configuration (`Channels`, `RepositoryIDs`), and scoped secrets looked up along it
  through a write-through cache (`Secrets`).
- **File tree**: the flat list edited by path prefixes (`RepositoryTree`) and the panel
  that toggles its directories (`RepositoryPanel`).
- **ACP client**: JSON-RPC correlation between concurrent requesters and one reader
  (`Acp`), after section 5 of the JSON-RPC 2.0 specification.
- **Parser and validator**: `git status --porcelain=v1 -z` (`Porcelain`) and generated
  user-interface documents (`UiSchema`).
- **Mirror index**: a flat map that has to agree with a nested configuration (`Mirrors`).

`Wrappers` and `Strings` hold `Option`, `Result` and Go's `strings.TrimSpace`.

## How it is built

An object that the source updates in place is a class here, and each of its methods is
proved to change the object's state exactly as a function on plain values does
(`State() == F(old(State()))`). The theorems are about those functions: for concurrent
code a world with one step per critical section, so that a list of steps is one
interleaving, and lemmas over all lists. `Runs.RunService` is linked to its world by
`Shows`: whatever world shows a run's fields before a method still does after the
corresponding step.

The premises of a theorem are its `requires` clauses. The main ones that the code itself
can break are in the next section, each with a result about what happens then. Others are
assumptions about the surroundings: a tree with slash-free names, listings that do not
change, a stream whose event IDs are distinct, and at most 2^63 - 1 requests.

## What the proofs turned up

- The comment in `Publish` says that a slow client recovers by reconnecting
  (`internal/realtime/hub.go:99-100`). It does if and only if no event that found room after
  another had found the channel full was delivered from that channel (`Recovery.RecoversIff`).
  Otherwise the dropped event never arrives, in any later session (`Recovery.LostForever`),
  and every client can get there (`Recovery.LossIsReachable`).
- The server trims the cursor but nothing trims event IDs, so a client whose last ID has
  outer white space is replayed from the wrong place (`Delivery.ReconnectExactIffTrimmed`,
  with an instance in `Delivery.ResentAfterUntrimmed`).
- An event whose ID the history already has is left out of the history and sent all the same
  (`internal/realtime/hub.go:91-97`), so an attached client's stream stays right if and only if
  new events find room and known ones do not (`Delivery.PublishExactIff`). The gateway's stream
  consumer hands every stream event to `Publish` (`cmd/gateway/main.go:294`), also after a
  connecting client's replay has put it into the history: that client is sent it twice
  (`Replayer.ServedTwice`). Generated event IDs repeat after 26 in a second, and then the second
  event is sent once and can never be replayed.
- Stopping the browser's socket and starting it again before its close event comes can lead to
  two live sockets, of which a later stop closes one. At most one is live through a whole run
  if and only if the reconnect timer never fires while a socket is live
  (`RealtimeClient.OneLiveIff`), and how the timer comes to be pending then is
  `RealtimeClient.OneConnectionIff`.
- A replay refreshes the hub by appending at the end of its history. On a hub that already
  has part of the stream this gives the exact backlog only under a condition on what the
  hub has (`Replayer.BacklogExactIff`, with a failing family in `Replayer.ServedOutOfOrder`).
- The comment on `ChannelPatch` says that only supplied keys are replaced
  (`internal/collaboration/channels.go:9-12`), but a configuration patch is laid over the
  parent's configuration, and what the channel itself had set is lost
  (`Channels.ConfigPatchKeepsIff`, and `Channels.PatchLosesOwn` for a channel at the top).
- An update reads a channel in one critical section and writes it in another, so of two updates
  that read before either writes, the first to write is lost as if it had never been made
  (`Channels.EarlierEditLost`).
- The ID generator repeats itself after 26 IDs in a second, and it also numbers threads,
  messages and events. A child created with its parent's ID takes the parent's place with a
  link to itself (`Channels.SelfLinkReachable`). In general a create leaves every walk to the
  root finite if and only if its ID is not on the chain of its parent (`Channels.WalksEndIff`);
  otherwise a lookup goes on until the request's context is done, if and only if no channel of
  the cycle defines the name (`Secrets.LookupEndlessIff`).
- A lookup passes over a channel whose durable read fails, without an error, and then takes an
  ancestor's value (`Secrets.FailuresHideIff`, `Secrets.FailedReadExposes`).
- A failing durable delete of a cached secret is reported as success, and the stored value
  shows through again (`Secrets.DeletedIffStored`, `Secrets.FailedDeleteReported`). A failing
  durable write leaves the cache ahead of the table (`Secrets.SetCoherentIff`,
  `Secrets.FailedSetForgotten`).
- A stop that begins while a run is still queued can end with an agent that was cancelled
  and a run recorded as succeeded (`Runs.EarlyStopCanSucceed`). A succeeded run's agent has
  succeeded if and only if no stop reached the running agent while the run still counted as
  running (`Runs.AgentSucceededIff`).
- The ID of an output event joins a run, a kind and a number with dashes, and across runs it can
  repeat if kinds have dashes (`EventIDs.DashedKindsCollide`).
- A user ID containing a NUL can collide with another user's mirror. Which pairs collide, and
  when the index is right all the same, is stated exactly for every state of every run
  (`Mirrors.CollideIff`, `Mirrors.IndexAgreesIff`). A first start without a configuration file
  leaves the index empty although it installs the migrated resources
  (`Mirrors.MigratedAgreesIff`).

## Model

| member | source | states |
|---|---|---|
| `HubService.MemoryHub.AddHistory` | internal/realtime/hub.go:37-45 | appends, in order, the events whose ID the workspace's history does not have yet, and keeps the hub's invariant |
| `HubService.MemoryHub.SubscribeSince` | internal/realtime/hub.go:51-62 | a cancelled context changes nothing; otherwise a new open channel with 32 places to spare holds exactly the history after the cursor and is listed last |
| `HubService.MemoryHub.Close` | internal/realtime/hub.go:63-80 | the first call unlists and closes the channel, later calls change nothing |
| `HubService.MemoryHub.Publish` | internal/realtime/hub.go:83-104 | which of the two errors is returned, and that only then nothing changes; otherwise the new event enters the history once and is offered to every listed channel, skipping the full ones |
| `HubService.ReplayAfter` | internal/realtime/hub.go:106-116 | the search returns the history after the first event with the cursor's ID, and all of it for an empty or unknown cursor |
| `HubService.ContainsEvent` | internal/realtime/hub.go:118-125 | true exactly if some event has the ID |
| `HubService.OpenChannel` | internal/realtime/hub.go:55-60 | sending the backlog under the lock never finds the channel full |
| `HubModel.PublishEffect` | internal/realtime/hub.go:91-102 | publishing extends one history and adds the event once to every open channel of the workspace that has room, to no other, and never sends on a closed one |
| `HubModel.RunInv` | internal/realtime/hub.go:37-104 | over every run of operations IDs stay distinct per workspace, histories only grow at the end, a channel is listed exactly while open, and nothing sends on or closes a closed channel |
| `HubModel.ReachableInv` | internal/realtime/hub.go:33-104 | the same from a new hub |
| `HubModel.ClosedForever` | internal/realtime/hub.go:63-80 | a closed channel stays closed and is never listed again |
| `HubModel.ApplyChannel` | internal/realtime/hub.go:51-104 | all that one operation can do to one existing channel |
| `HubModel.FirstEventsNeverDropped` | internal/realtime/hub.go:56-60 | however slow the reader, exactly 32 places are left after a subscription, and the first 32 events published after it find room in its channel |
| `HubModel.ValidIff` | internal/contracts/events.go:46-59 | an event is valid if and only if it lacks none of its eight required fields |
| `Delivery.ExactDelivery` | internal/realtime/http.go:55-108 | over any number of sessions what a client has received is a prefix of the current history after its first cursor, and all of it once nothing is in transit |
| `Delivery.NextKeeps` | apps/web/src/lib/realtime-client.ts:95-135 | every step of the client, the connection and the hub keeps the client following its workspace from where its first cursor points |
| `Delivery.ConnectKeeps` | apps/web/src/lib/realtime-client.ts:95-115 | reconnecting with the last received ID continues the stream without a gap or a repeat |
| `Delivery.PublishExactIff` | internal/realtime/hub.go:91-101 | after any publish an attached client's stream is its history after the first cursor if and only if the event was new and found room, or was known and found none |
| `Delivery.ReconnectExactIffTrimmed` | internal/realtime/http.go:57-77 | a reconnect is sent exactly what is missing if and only if the last ID has no outer white space |
| `Delivery.ReplayStart` | internal/realtime/hub.go:106-116 | a replay starts at an event if and only if its cursor names the event before |
| `Delivery.ResentAfterUntrimmed` | internal/realtime/http.go:57-77 | a concrete client whose last ID ends in a blank is sent that event again |
| `Recovery.NeverReordered` | internal/realtime/hub.go:83-104 | whatever is dropped, over any sessions nothing is received twice or out of order |
| `Recovery.RecoversIff` | internal/realtime/hub.go:96-101 | at the end of any run in which channels may be full, a reconnect makes the stream whole if and only if no event that found room after one found the channel full was delivered from it |
| `Recovery.ConnectWholeIff` | internal/realtime/http.go:57-77 | a reconnect makes the stream whole if and only if what has been received is a prefix of it |
| `Recovery.LostForever` | internal/realtime/hub.go:96-101 | an event that the client has received past never reaches it, over all later moves and sessions |
| `Recovery.ReconnectSendsIff` | internal/realtime/hub.go:106-116 | a reconnect sends a missing event if and only if no later one has been received |
| `Recovery.DropThenAcceptLosesForever` | internal/realtime/hub.go:96-101 | a client that receives, from the same connection, the event accepted after a drop never receives the dropped one, whatever follows |
| `Recovery.DropLeavesHole` | internal/realtime/hub.go:96-101 | the drop leaves a hole in the stream, and a replay after the accepted event is empty |
| `Recovery.FullIsReachable` | internal/realtime/hub.go:56-60 | from any fresh client, connecting and enough unread publishes fill the channel, so that the next publish drops |
| `Recovery.LossIsReachable` | internal/realtime/hub.go:96-101 | from any fresh client some run ends where no reconnect makes the stream whole |
| `RealtimeClient.ReconnectingRealtimeSocket.Start` | apps/web/src/lib/realtime-client.ts:70-74 | connects from the kept cursor, once |
| `RealtimeClient.ReconnectingRealtimeSocket.Stop` | apps/web/src/lib/realtime-client.ts:76-83 | tells the current socket to close, drops a pending reconnect and keeps the cursor; the close event is still to come |
| `RealtimeClient.ReconnectingRealtimeSocket.ConnectSocket` | apps/web/src/lib/realtime-client.ts:95-102 | a connection asks for the events after the cursor of that moment; a stopped client makes none |
| `RealtimeClient.ReconnectingRealtimeSocket.Receive` | apps/web/src/lib/realtime-client.ts:117-125 | the cursor becomes the ID of a received event unless that is empty; other frames leave it |
| `RealtimeClient.ReconnectingRealtimeSocket.SocketClosed` | apps/web/src/lib/realtime-client.ts:113-114 | the close event of any socket, even one told to close by an earlier stop, asks for a reconnect |
| `RealtimeClient.ReconnectingRealtimeSocket.ScheduleReconnect` | apps/web/src/lib/realtime-client.ts:127-135 | at most one reconnect is pending, and none is scheduled once stopped |
| `RealtimeClient.ReconnectingRealtimeSocket.TimerFired` | apps/web/src/lib/realtime-client.ts:131-134 | the pending reconnect asks for the events after the cursor |
| `RealtimeClient.CursorIsLastID` | apps/web/src/lib/realtime-client.ts:117-125 | after any run of starts, stops, closes and frames the cursor is the ID of the last event received |
| `RealtimeClient.QueriesAsk` | apps/web/src/lib/realtime-client.ts:95-102 | a step makes at most one connection, of a client that is not stopped, and it asks with the cursor of that moment |
| `RealtimeClient.OneLiveIff` | apps/web/src/lib/realtime-client.ts:70-135 | through a whole run at most one socket is live if and only if the reconnect timer never fires while a socket is live |
| `RealtimeClient.OneConnectionIff` | apps/web/src/lib/realtime-client.ts:113-135 | through a whole run no reconnect is pending beside a live socket if and only if no close event comes while another socket is live and no reconnect pending |
| `RealtimeClient.NoLateCloseSuffices` | apps/web/src/lib/realtime-client.ts:113-135 | without such a close event at most one socket is live |
| `RealtimeClient.StopStartLeavesTwo` | apps/web/src/lib/realtime-client.ts:76-83 | stop and start before the close event lead to two live sockets, and a stop then closes one |
| `RealtimeClient.NeverStranded` | apps/web/src/lib/realtime-client.ts:70-135 | over every run a client that has not been stopped has a socket, or one whose close event is to come, or a reconnect pending |
| `Replayer.Replay` | internal/events/nats.go:93-127 | by message: if the cursor is not blank and some event of the workspace has it as its ID, exactly the workspace's events in the messages after the first such one, otherwise all of them, each once and in order; and when it fails with which error |
| `Replayer.AfterIsAnswer` | internal/events/nats.go:93-127 | that answer is the search by cursor over the workspace's events |
| `Replayer.Connect` | internal/realtime/http.go:46-79 | a connecting client: the replay from the trimmed cursor, added to the hub, then the subscription; which failure ends it, and that then nobody is subscribed |
| `Replayer.AddHistoryAppends` | internal/realtime/hub.go:37-45 | adding distinct events to any history appends the unknown ones in order |
| `Replayer.ServedBacklog` | internal/realtime/http.go:57-77 | what a connecting client finds in its channel: what the hub had after the cursor, and then what of the replay's answer the hub did not have |
| `Replayer.BacklogExactIff` | internal/realtime/http.go:57-77 | for any answer of the replay, the channel holds exactly that answer if and only if what the hub has after the cursor begins it and nothing the hub has before belongs to it |
| `Replayer.EmptyHubServesStream` | internal/realtime/http.go:57-77 | on a hub without history for the workspace it always holds the replay's answer |
| `Replayer.ServedOutOfOrder` | internal/realtime/http.go:57-77 | a hub that has only the second of two stream events sends a new client both in the wrong order |
| `Replayer.ServedTwice` | cmd/gateway/main.go:289-298 | a client that connects while an event is in the stream and not yet handed to the hub is sent it twice |
| `RunStates.LegalLogBounds` | internal/contracts/run.go:16-29 | states that move only along the table change at most three times, never leave a terminal state, and after stopping never reach succeeded |
| `MockAgent.MockRuntime.Spawn` | internal/agent/mock.go:34-45 | refuses an empty or used ID, and otherwise adds one queued run with an empty open channel |
| `MockAgent.MockRuntime.Run` | internal/agent/mock.go:47-64 | starts a queued run and its goroutine, refuses any other |
| `MockAgent.MockRuntime.Stop` | internal/agent/mock.go:78-99 | cancels a queued run and closes its channel, cancels a running one and leaves the closing to its goroutine, leaves others alone |
| `MockAgent.MockRuntime.BeginSend` | internal/agent/mock.go:109-124 | which input is refused and why, and that accepted input waits while holding the run's lock |
| `MockAgent.MockRuntime.EndSend` | internal/agent/mock.go:109-124 | once there is room the accepted input is sent and the lock released |
| `MockAgent.MockRuntime.ExecuteLock` | internal/agent/mock.go:66-76 | the goroutine takes the lock, and in its last section marks a run that is still running as succeeded |
| `MockAgent.MockRuntime.ExecuteEmit` | internal/agent/mock.go:135-148 | an output is sent if there is room, or given up when the context is done |
| `MockAgent.MockRuntime.ExecuteClose` | internal/agent/mock.go:66-76 | the goroutine closes the channel last, before it releases the lock |
| `MockAgent.AgentSafe` | internal/agent/mock.go:34-148 | in every interleaving the output channel is closed at most once and never sent on afterwards, and the state moves only along the table |
| `MockAgent.SpawnedSafe` | internal/agent/mock.go:34-148 | from its spawn a run's state changes at most three times and ends as it first terminates |
| `MockAgent.StopEndsAgent` | internal/agent/mock.go:78-99 | a stop leaves every run in a terminal state: queued and running ones cancelled, a queued one with its channel closed, others untouched |
| `MockAgent.InputsArrive` | internal/agent/mock.go:109-124 | in every interleaving the inputs sent on the channel, and one that still waits, are the accepted ones in order |
| `MockAgent.UndisturbedRun` | internal/agent/mock.go:47-76 | without stop, cancellation or input the channel gets the start, the prompt and the finish in that order and nothing else, and an ended run has succeeded |
| `EventIDs.EventIDWithinRun` | internal/runs/service.go:193-215 | within a run two output events have the same ID only if kind and number agree, whatever the kinds contain |
| `EventIDs.EventIDAcrossRuns` | internal/runs/service.go:193-215 | across runs too, for kinds without a dash |
| `EventIDs.DashedKindsCollide` | internal/runs/service.go:193-215 | two runs with a dash in a kind that give the same ID |
| `Runs.RunService.Create` | internal/runs/service.go:66-97 | the two refusals, the new queued run and its context, as the step of the run's world |
| `Runs.RunService.Start` | internal/runs/service.go:117-147 | a queued or running run becomes running, any other status is refused, and other runs are left alone |
| `Runs.RunService.NumberOutput` | internal/runs/service.go:193-215 | each output gets the next number of its run |
| `Runs.RunService.FinishConsume` | internal/runs/service.go:149-172 | a run that is still running when its channel has ended becomes succeeded, any other status stays |
| `Runs.RunService.ClearRunContext` | internal/runs/service.go:183-191 | cancels and forgets the run's context |
| `Runs.RunService.BeginStop` | internal/runs/service.go:216-235 | a running run becomes stopping, any other status stays |
| `Runs.RunService.CancelRun` | internal/runs/service.go:254-258 | cancels the context if it has not been cleared |
| `Runs.RunService.EndStop` | internal/runs/service.go:236-252 | a stopping run becomes cancelled, any other status stays |
| `Runs.StatusLifecycle` | internal/runs/service.go:66-252 | in every interleaving each status change is allowed, there are at most three, and terminal statuses are final |
| `Runs.StoppingNeverSucceeds` | internal/runs/service.go:216-252 | a run that a stop moved to stopping can only become cancelled |
| `Runs.StopEnds` | internal/runs/service.go:216-252 | over every run, once no stop is in progress nothing is stopping any more, and a run that was stopping is cancelled |
| `Runs.StopReachesAgent` | internal/runs/service.go:236-258 | in every reachable state a stop that has come to the agent has cancelled its context, and stopping the agent leaves it terminal |
| `Runs.OutputsInOrder` | internal/runs/service.go:149-215 | outputs are numbered 1 to n without gaps in channel order by at most one consumer, and once succeeded they are all the agent ever sent |
| `Runs.OutputEventsDistinct` | internal/runs/service.go:193-215 | no two output events of a run have the same ID |
| `Runs.NextKeeps` | internal/runs/service.go:66-258 | every critical section of the service and the agent keeps the status history and the consumer's bookkeeping |
| `Runs.AgentSucceededIff` | internal/runs/service.go:149-252 | the agent of a run that ended as succeeded has succeeded if and only if no stop reached it running while the run still counted as running |
| `Runs.SucceededMeansAgentSucceeded` | internal/runs/service.go:149-252 | in particular if no stop begins on a queued run |
| `Runs.EarlyStopCanSucceed` | internal/runs/service.go:216-252 | an interleaving in which the agent was cancelled and the run succeeded |
| `RepositoryIDs.NormalizeRepositoryIDs` | internal/collaboration/repository_ids.go:17-28 | the loop with a seen map computes the normal form |
| `RepositoryIDs.NormalizeKeepsFirsts` | internal/collaboration/repository_ids.go:17-28 | the result is trimmed, non-empty and free of repeats, has every ID of the input, and keeps the order of first occurrence |
| `RepositoryIDs.NormalizeFixpoint` | internal/collaboration/repository_ids.go:17-28 | a list is left as it is if and only if it is normal, so normalizing twice is normalizing once |
| `Channels.CollaborationService.GenerateID` | internal/collaboration/service.go:125-128 | counts up and returns the prefix, the second and one of 26 letters |
| `Channels.CollaborationService.CreateChannelWithRepositories` | internal/collaboration/channels.go:29-63 | exactly when a create is refused and with which error; otherwise, in a store whose lists are normal as every run leaves them, the one new channel, with name, creator and parent as given, its own normal list or else the parent's, and its own configuration over the parent's, also when its event cannot be published and the call fails |
| `Channels.CollaborationService.UpdateChannel` | internal/collaboration/channels.go:65-121 | exactly when an update is refused and with which error; otherwise, in a store whose lists are normal as every run leaves them, only this channel changes: every field is what the patch gives or what it was, and an empty list becomes the parent's; also when the call then fails to publish |
| `Channels.PatchChannel` | internal/collaboration/channels.go:102-121 | refused exactly for a blank name; otherwise, for a channel and parent with normal lists, the new list is the normal form of the last field given of the four, the old one if none is, and the parent's if that is empty; name and configuration change only if patched |
| `Channels.RepositoryPatchIs` | internal/collaboration/repository_ids.go:30-43 | of repository_id, repository_ids, resource_id and resource_ids the last one present decides |
| `Channels.Inherit` | internal/collaboration/channels.go:110-115 | a channel left without repositories takes its parent's |
| `Channels.InheritedGood` | internal/collaboration/repository_ids.go:5-15 | own repositories win, an empty list takes the parent's, and the result is normal |
| `Channels.MergeConfig` | internal/collaboration/channels.go:273-282 | the loop yields the child's keys and the parent's others |
| `Channels.DraftLists` | internal/collaboration/channels.go:29-63 | a new channel's list is empty if and only if it was given none and there is no parent or the parent's is empty; the legacy ID is its head |
| `Channels.DraftConfig` | internal/collaboration/channels.go:40-43 | key by key, a new channel's configuration is its own and otherwise its parent's |
| `Channels.DraftIs` | internal/collaboration/channels.go:29-63 | every field of a new channel in terms of the request and the parent |
| `Channels.PatchLists` | internal/collaboration/channels.go:102-121 | a patch keeps ID, parent and workspace, leaves a normal list with the legacy ID at its head, and an empty one only if the parent's is empty |
| `Channels.ConfigPatchKeepsIff` | internal/collaboration/channels.go:117-128 | a configuration patch keeps the unmentioned keys if and only if the channel agreed with its parent on them |
| `Channels.PatchLosesOwn` | internal/collaboration/channels.go:123-128 | a top-level channel loses a key of its own when another one is patched |
| `Channels.EditRuns` | internal/collaboration/channels.go:65-89 | an update whose critical sections nothing interrupts does exactly what the whole call does |
| `Channels.EarlierEditLost` | internal/collaboration/channels.go:65-89 | of two updates that read a channel before either writes it the first is lost: the store ends as if only the second had been made |
| `Channels.RunKeeps` | internal/collaboration/channels.go:29-121 | in every interleaving of creates and updates with fresh IDs, lists stay normal, the links form a forest ordered by creation inside one workspace, and no channel changes its parent or workspace |
| `Channels.ReachableInv` | internal/collaboration/channels.go:29-121 | the same from an empty service |
| `Channels.ChainDescends` | internal/collaboration/channels.go:188-190 | a parent chain goes strictly back in creation order and stays in one workspace |
| `Channels.IDsRepeatIff` | internal/collaboration/service.go:125-128 | two generated IDs are equal if and only if their seconds are and their numbers agree modulo 26 |
| `Channels.SelfLinkReachable` | internal/collaboration/channels.go:50-51 | two creates 26 IDs apart in one second, the second under the first, leave a channel that is its own parent |
| `Channels.InsertAcyclicIff` | internal/collaboration/channels.go:50-51 | storing a new channel leaves the links acyclic if and only if its ID is not on the chain of its parent |
| `Channels.WalksEndIff` | internal/collaboration/channels.go:50-51 | every walk to the root then ends if and only if the same holds, and otherwise no number of links ends the walk from that ID |
| `Secrets.SecretService.Set` | internal/secrets/service.go:88-115 | denied if and only if the context is done, or the channel is unknown, or its workspace is not both readable and writable, with which error, and then nothing changes; otherwise the cache, and the table if its write succeeds, have the trimmed name's new value |
| `Secrets.SecretService.Resolve` | internal/secrets/service.go:140-166 | denied if and only if the context is done, or the channel is unknown or not readable; otherwise the value of the first channel on the walk that is seen to define the name, cache before table, passing over failing durable reads and going no further than the context lasts |
| `Secrets.SecretService.List` | internal/secrets/service.go:117-138 | denied if and only if the context is done, or the channel is unknown or not readable; otherwise the names along the walk, as far as the context lasts, each from the first channel that is seen to define it, without the stored names of channels whose durable listing fails |
| `Secrets.SecretService.ListChannel` | internal/secrets/service.go:123-131 | one channel adds its stored names, if they can be read, and then those only cached, skipping names already listed |
| `Secrets.AddNames` | internal/secrets/service.go:188-204 | the loop adds exactly the names not listed yet, with their source |
| `Secrets.SecretService.Delete` | internal/secrets/service.go:168-186 | denied as a set is, and then nothing changes; otherwise what is removed from cache and table, and that the name counts as found exactly if it was there to see |
| `Secrets.SecretService.Restart` | internal/secrets/service.go:75-86 | a new service over the same table starts with an empty cache |
| `Secrets.WalkIsChain` | internal/secrets/service.go:218-227 | authorization never cuts the walk short for a user who may read the channel |
| `Secrets.WithinVisits` | internal/collaboration/channels.go:221-224 | a walk visits the channels of the chain in order, and all of them unless its context ends first |
| `Secrets.ResolvesNearest` | internal/secrets/service.go:149-164 | a lookup takes the nearest definition on the chain |
| `Secrets.FailuresHideIff` | internal/secrets/service.go:149-164 | a lookup with failing durable reads takes the nearest definition if and only if that channel's read works or the value is cached |
| `Secrets.FailedReadExposes` | internal/secrets/service.go:160-164 | a channel whose read fails is taken to have its ancestor's value |
| `Secrets.LoopVisited` | internal/collaboration/channels.go:221-224 | on a cycle of parents a lookup visits exactly as many channels as its context lasts for |
| `Secrets.LookupEndlessIff` | internal/secrets/service.go:149-164 | after a create with an ID on its parent's chain, a lookup there goes on for as long as its context, if and only if no channel of the cycle defines the name |
| `Secrets.ResolveAgreesWithList` | internal/secrets/service.go:117-166 | a name resolves exactly if it is listed, with the value of the listed source, which is the nearest defining ancestor |
| `Secrets.SetIsScoped` | internal/secrets/service.go:88-115 | after a set every channel resolves every name as before, except the name itself where the channel written is now the nearest to define it |
| `Secrets.DeleteExposesNext` | internal/secrets/service.go:168-186 | after a delete exactly the channels that resolved the name from there resolve it from the next ancestor |
| `Secrets.SetThenDelete` | internal/secrets/service.go:88-186 | setting and then deleting a name the channel did not define restores every resolution |
| `Secrets.SetCoherentIff` | internal/secrets/service.go:102-114 | a set keeps cache and table equal if and only if the durable write succeeds or would change nothing |
| `Secrets.FailedSetForgotten` | internal/secrets/service.go:102-114 | a write whose durable half fails is used at once and gone after a restart |
| `Secrets.RunCoherent` | internal/secrets/service.go:88-186 | over every run with successful writes each cached entry is the durable one |
| `Secrets.RestartTransparent` | internal/secrets/service.go:88-204 | dropping the cache at any point of such a run changes no resolution and no listing |
| `Secrets.DeletedIffStored` | internal/persistence/secrets.go:39-52 | a delete that reports success has removed the name if and only if the durable call worked or had no row |
| `Secrets.FailedDeleteReported` | internal/secrets/service.go:173-185 | a delete whose durable half fails is reported as success and the value is still found |
| `RepositoryTree.DescendantIsPrefix` | apps/web/src/components/repository-tree.ts:41-43 | the descendant test is the prefix test on the directory followed by a slash |
| `RepositoryTree.CollapseHas` | apps/web/src/components/repository-tree.ts:20-25 | collapsing removes exactly the descendants |
| `RepositoryTree.ExpandIsInsert` | apps/web/src/components/repository-tree.ts:3-18 | expanding a listed directory is collapsing it and putting the listing right after it |
| `RepositoryTree.ExpandIdempotent` | apps/web/src/components/repository-tree.ts:3-18 | on any list, expanding twice is expanding once |
| `RepositoryTree.CollapseAfterExpand` | apps/web/src/components/repository-tree.ts:3-25 | on any list, collapse after expand is collapse alone |
| `RepositoryTree.SiblingsApart` | apps/web/src/components/repository-tree.ts:41-43 | for slash-free distinct names the prefix test never confuses siblings |
| `RepositoryTree.CollapsePreorder` | apps/web/src/components/repository-tree.ts:20-25 | collapsing the list is shutting the directory and all below it in the tree |
| `RepositoryTree.InsertPreorder` | apps/web/src/components/repository-tree.ts:3-18 | inserting a shut directory's listing is opening it in the tree |
| `RepositoryTree.VisibleMeansOpen` | apps/web/src/components/repository-tree.ts:3-43 | whatever is visible below a directory means that the directory is open |
| `RepositoryTree.ShownIsBlock` | apps/web/src/components/repository-tree.ts:3-43 | in the list of a tree, what is below any path on show is one contiguous block that starts right after it, at every level |
| `RepositoryTree.DescendantsAreBlock` | apps/web/src/components/repository-tree.ts:27-35 | filtering a level's list for what is below one of its entries gives that entry's own block |
| `RepositoryTree.RefreshIsIdentity` | apps/web/src/components/repository-tree.ts:27-35 | refreshing with the same root listing changes nothing |
| `RepositoryPanel.RepositoryPanel.ToggleDirectory` | apps/web/src/components/use-repository-tree.ts:44-59 | the new list and expanded set for a collapse, an expand and a failed request |
| `RepositoryPanel.CollapsedKeep` | apps/web/src/components/repository-tree.ts:37-39 | collapsing keeps exactly the expanded directories outside the collapsed one |
| `RepositoryPanel.PanelShowsTree` | apps/web/src/components/use-repository-tree.ts:44-59 | after every sequence of toggles of visible directories the list is the pre-order of the tree opened at exactly the expanded directories, which are closed under ancestors; what is below any entry is one block, and a refresh changes nothing |
| `Acp.StdioAcp.BeginRequest` | internal/runtime/acp_stdio.go:107-120 | allocates the next ID and a pending reply of its own, which waits only if the line was written, and then the ID is the next on the wire |
| `Acp.StdioAcp.HandleLine` | internal/runtime/acp_stdio.go:213-256 | one decoded line: permission request, reply, notification or nothing |
| `Acp.StdioAcp.Deliver` | internal/runtime/acp_stdio.go:234-247 | the reader's reply goes into the slot it was read for, no other slot changes, and the reader reads on |
| `Acp.StdioAcp.EndReading` | internal/runtime/acp_stdio.go:213-257 | the end of the output closes the notifications and leaves pending requests to their contexts |
| `Acp.StdioAcp.Await` | internal/runtime/acp_stdio.go:120-130 | the requester takes the reply or leaves when its context ends |
| `Acp.ChooseOutcome` | internal/runtime/acp_stdio.go:258-288 | the nested search for a consent option |
| `Acp.PermitIsOffered` | internal/runtime/acp_stdio.go:258-288 | permission is granted only in the permissive mode and only by an offered option, a lasting one first |
| `Acp.ApplyKeeps` | internal/runtime/acp_stdio.go:107-256 | each critical section keeps pending IDs, slots and reader consistent |
| `Acp.Correlation` | internal/runtime/acp_stdio.go:107-256 | in every interleaving request IDs strictly increase, each request gets at most one reply and it has its ID, and the reader's send on a reply channel never waits, even for a requester that left |
| `Acp.IDsNotReused` | internal/runtime/acp_stdio.go:107-247 | an ID once answered is never pending again and its request gets no second reply |
| `Acp.ReplyIgnoredIff` | internal/runtime/acp_stdio.go:234-247 | in every reachable state a reply is ignored if and only if it answers no request still without a reply, and otherwise goes to that request |
| `Acp.FirstReplyArrives` | internal/runtime/acp_stdio.go:107-256 | in every interleaving a request is sent the first reply read with its ID after it was made, with that reply's result and error, and no other |
| `Acp.PermissionsAnswered` | internal/runtime/acp_stdio.go:258-288 | in every interleaving each permission request gets exactly one answer, with its own ID and in order; it is declined outside the permissive mode, and consent names an option of that very request, a lasting one if there is any |
| `Acp.WireIsWritten` | internal/runtime/acp_stdio.go:107-120 | the wire carries exactly the IDs of the requests that could be written, in the order they were made |
| `Acp.NotificationsInOrder` | internal/runtime/acp_stdio.go:249-255 | in every interleaving what is taken from the notifications, with what is left, is the session, kind and text of each update that found room, in order |
| `Porcelain.ParseChanges` | internal/git/changes.go:35-57 | the index loop computes the parse of the records, errors included |
| `Porcelain.StatusOfCode` | internal/git/changes.go:59-72 | exactly which two-letter codes get which status |
| `Porcelain.RoundTrip` | internal/git/changes.go:35-72 | printing any entries in the -z form and parsing gives back paths, statuses and original paths |
| `Porcelain.ParseAccounts` | internal/git/changes.go:35-57 | every successful parse accounts for the non-empty records in order, whose number is changes plus renames |
| `Porcelain.ParsesIff` | internal/git/changes.go:35-57 | any records, empty ones anywhere, parse to given changes if and only if the changes account for the non-empty ones and no rename is separated from its original path |
| `Porcelain.ParsesIffAccounts` | internal/git/changes.go:35-57 | in particular for non-empty records with one empty one at the end, the form git prints |
| `Porcelain.FailsIff` | internal/git/changes.go:35-57 | a parse fails with an error if and only if some record stops it in that way, too short or a rename without its original path, after records that parse |
| `UiSchema.ValidateDocument` | internal/resourcegraph/ui_schema.go:102-109 | a document is accepted if and only if its header is right and its tree well shaped, with at most 100 nodes and none deeper than 8; at most 101 calls are made on any document |
| `UiSchema.ValidateNode` | internal/resourcegraph/ui_schema.go:111-141 | from any depth and budget, success exactly on well-shaped trees within both limits, the budget used, a justification of each error, and a bound on the calls |
| `UiSchema.ValidateChildren` | internal/resourcegraph/ui_schema.go:125-133 | the loop over a layout's children succeeds exactly if all of them are well shaped and fit the depth and what is left of the budget |
| `UiSchema.KnownUIComponent` | internal/resourcegraph/ui_schema.go:143-150 | the search finds exactly the registered components |
| `UiSchema.ValidateProps` | internal/resourcegraph/ui_schema.go:152-190 | accepted exactly if the encoding is small enough, the component is registered and its demands are all met, with the size error first |
| `UiSchema.ValidateShape` | internal/resourcegraph/ui_schema.go:156-190 | the branches of the validator accept exactly the properties that meet the component's row of the table of demands |
| `UiSchema.RequireTexts` | internal/resourcegraph/ui_schema.go:192-199 | no error exactly if every key holds a non-blank string within the limit |
| `UiSchema.BoundedArray` | internal/resourcegraph/ui_schema.go:209-215 | no error exactly if the key holds an array within the limit |
| `UiSchema.ByteLengthBounds` | internal/resourcegraph/ui_schema.go:201-207 | a text has between one and four bytes a character, and exactly one if and only if it is all ASCII |
| `Mirrors.HostServer.ApproveMirror` | internal/hostagent/config.go:170-177 | exactly one binding enters the user's resources and its path the index |
| `Mirrors.HostServer.ImportConfig` | internal/hostagent/config.go:224-246 | what is rejected, what crashes, and otherwise the replaced user and a rebuilt index |
| `Mirrors.HostServer.EnableApprovalPersistence` | internal/hostagent/config.go:62-93 | the four ways the file can be, and in which the index is rebuilt; the migrated users are the legacy folders of one user with their paths, the loaded ones are those of the file |
| `Mirrors.MigratedIs` | internal/hostagent/config.go:95-130 | which user and resources a legacy folder list becomes, and with which paths |
| `Mirrors.HostServer.RebuildMirrorIndex` | internal/hostagent/config.go:190-197 | whatever the order of iteration, the index has exactly the configuration's keys, each with the path of a pair that has it |
| `Mirrors.KeyInjective` | internal/hostagent/config.go:276 | for user IDs without NUL the joined key determines user and resource |
| `Mirrors.CollideIff` | internal/hostagent/config.go:276 | exactly which two pairs share a joined key: one user ID is the other, a NUL and more, and the resource IDs make up for it |
| `Mirrors.RebuildAgreesIff` | internal/hostagent/config.go:190-197 | a rebuilt index agrees with the configuration if and only if pairs that share a key have the same path |
| `Mirrors.RebuildCountsIff` | internal/hostagent/config.go:190-197 | it has one entry for each pair if and only if no two pairs share a key |
| `Mirrors.ApproveKeepsRebuilt` | internal/hostagent/config.go:170-177 | whatever the user IDs, approving leaves an index that a rebuild could have left |
| `Mirrors.ApproveAgreesIff` | internal/hostagent/config.go:170-177 | approving keeps the agreement if and only if every other pair with the same key has the same path |
| `Mirrors.IndexAgreesIff` | internal/hostagent/config.go:170-246 | in every state of every run from an empty or a loaded server the index agrees if and only if pairs that share a key have the same path, and has one entry per user and resource if and only if no two share a key |
| `Mirrors.IndexAgrees` | internal/hostagent/config.go:170-246 | so with NUL-free user IDs it always agrees, with exactly one entry per user and resource |
| `Mirrors.CollidingKeys` | internal/hostagent/config.go:272-276 | with a NUL in a user ID two bindings can share a key, and then no index covers both |
| `Mirrors.MigratedAgreesIff` | internal/hostagent/config.go:62-130 | the migrated users of a first start without a file agree with the index, left empty, only if nothing was migrated |

## Left out

- I/O: WebSocket and HTTP handling, NATS connection and acknowledgement, process pipes,
  Docker, PostgreSQL, files. Messages are sequences and tables are maps; whether an outside
  call succeeds is a parameter.
- Clocks, timers, retry delays and jitter: no result depends on them.
- AES-GCM: sealing and opening are an opaque pair of inverses, so a secret that cannot be
  opened does not occur.
- JSON: decoded values are the starting point, and the length of an encoding is a parameter
  of the validator.
- Run and channel services with a store attached: reading through the store can write an
  older copy back, and the claims are about the services without one.
- RealtimeClient: frames are not tied to the socket they come from, and the status callbacks
  and `send` are left out.
- Delivery.ExactDelivery: the client's frames are decoded events, and one connection's
  leftover frames are lost with it; frames of an old connection never reach a new one.
- Acp.Correlation: requests made by the agent with a method other than the permission request
  are taken as replies by the code and by the model alike; the result is about at most 2^63 - 1
  requests, after which the modelled counter wraps as Go's does. The client's lock is not
  modelled: the reader does wait for it, behind a requester that is writing to the process.
- Acp.StdioAcp.BeginRequest: the lock is held while the line is written, so the numbering and
  the write are one step; the encoding of parameters and results is not modelled, nor are the
  session, model and configuration calls built on it.
- Secrets.SecretService.Resolve: one operation at a time over an unchanging forest, and an
  authorizer and a store that do not look at the context themselves. The laws on
  scoping, restarts and listings are about reads that work, and `Secrets.FailuresHideIff` says
  what failing ones change.
- Secrets.SecretService.Restart: stands for a new process; the source has no such method.
- Channels.CollaborationService.UpdateChannel: reads and writes in one call here; its
  interleaving with other requests is in `Channels.Next`, which splits it at the locks.
- Channels: absent and empty configurations are not told apart, creation times are a counter,
  a service without an authorizer is one whose users may read and write nothing, and the ID
  counter does not reach the end of its integer type.
- Mirrors.HostServer.EnableApprovalPersistence: migration is the map of legacy folders; saving,
  exporting and agent preferences are left out, and so is the legacy branch of loading beyond
  installing the migrated users.
- Mirrors.IndexAgreesIff: the order of Go's map iteration is arbitrary, so a rebuilt index is
  described by a relation and not by a function.
- MockAgent: streaming hands out the channel and changes nothing; text is not interpreted.
- Porcelain.RoundTrip: each character stands for one byte, as in a Go string; cleaning of diff
  paths and reading of file contents are left out.
- UiSchema.ValidateDocument: UTF-8 lengths are computed for well-formed text.
- RepositoryPanel.PanelShowsTree: one toggle at a time over fixed listings; two requests in
  flight at once, and the selection of files and repositories, are left out.
- Task grants, adapter manifests, workspace and graph records, React components: single checks
  and user interface.
