# birdman: a Dafny model of its protocols and bounded algorithms

birdman is a control plane for dedicated game servers: a master (PostgreSQL, REST, an
alertmanager mirror) and one agent per node that runs containers. This project models the
parts of it that carry state over long runs, and proves what they promise:

- **Command delivery** (`Messages`, `CommandQueue`, `Hub`, `RegistriesService`, `CmdCache`,
  `RegistryStore`, `AgentLinkProtocol`, `AgentLinkGuarantees`, `AgentLinkAcks`,
  `AgentLinkConvergence`, `AgentLinkRaces`, `Outbox`):
  the Hub's per-node queue with replay on reconnect, coalesced registry snapshots, bounded
  channels that drop pushes, acknowledgement by `cmd_id`, the agent's 1024-slot idempotency
  window, and the agent's outbox.
- **Alert history** (`Lines`, `NewestFirst`, `AlertLog`, `AlertAnswers`, `AlertTail`): the growing
  window over the end of the alert log against parsing the whole log, and what an answer means in
  labels and timestamps.
- **OpenAPI generator** (`SchemaShape`, `SchemaCycles`, `SchemaBuilder`, `SchemaMeaning`,
  `SchemaEncoding`, `SchemaComponents`): recursion over a cyclic type graph, and which JSON the
  schemas validate.
- **Deploys** (`DeploySteps`, `DeployGuarantees`, `DeployForward`, `DeployChain`,
  `DeployLeftovers`, `DeployManager`, `DeployRaces`): prepull jobs, the forward-only marker,
  completions and the automatic chain.
- **Supervision on the node** (`PortPool`, `Lifecycle`, `Supervision`, `SupervisionGuarantees`,
  `AgentManager`): servers as state machines over one port pool.
- **Reconcilers and bounded structures** (`Silences`, `SilencePass`, `SilenceMirror`,
  `RateLimiter`, `LogStream`, `ImageGC`).

Where the source updates objects in place there is a class whose methods are proved against
functions of the old state; what the functions promise is proved as lemmas over them, and the main
operations say it in their contracts too, in the fields, times and messages themselves. Where
goroutines interleave there is a step system, an inductive invariant and theorems about every
run; the classes' methods are then proved to be sequences of those steps.

`dafny verify dfyconfig.toml` checks the whole project.

## Where the code does not do what its comments say

- `agent/internal/link/client.go:388-409`: a receive loop is not joined when its session ends.
  A superseded loop that has accepted a command and is slow can apply an outdated registry
  snapshot over the newest one, after the newest was acknowledged (`OutdatedSnapshotCanWin`) or
  before (`PendingSnapshotCanBeStranded`); and a command can be acknowledged, because the next
  session found it known, and then never run (`AcknowledgedWorkCanBeLost`). Each promise holds
  throughout a run exactly when one kind of step is not taken: what is acknowledged was executed
  if and only if no command is acknowledged while it was never executed and a superseded loop
  still holds it (`AcksAreHonestIff`); the newest snapshot is pending or in use if and only if no
  other one is applied once it has left pending, and no ack takes it out of pending while a loop
  still has it to execute or after another one was applied over it (`ConvergedThroughoutIff`); and it gets through if and only if no other snapshot
  is applied after this process accepted the newest one and no loop still has it to execute
  (`DeliveringThroughoutIff`). Being pending does not help then: a replay of an id the process
  knows is acknowledged again and not executed (`StrandedStays`). `QuietRunsAreOrderly` gives a
  condition on reconnects that rules all of this out.
- `master/internal/agentlink/hub.go:389-417`: a message without a command has no id of its own,
  so two of them are not told apart (`EmptyMessagesShareAnId`); no other two pending messages
  share an id (`SharedIdIffEmpty`).
- `master/internal/httpapi/alerts.go:571-575` speaks of parsing about two file sizes in the worst
  case; the bound that holds is three (`ParseCostIsLinear`, `ParseCostExceedsTwoSizes`).
- `master/internal/httpapi/alerts.go:687-725`: a line of 4 MiB or more, wherever it starts, ends
  the scan, so a whole read shows what is in front of it and a window that begins in it what is
  behind it (`OverlongLineHidesTheRest`); the scan gets to the end exactly of data without one
  (`TooLongIffNotScannable`).
- `master/internal/httpapi/openapi.go:420-426`, `437-443` and `496-534`: not all that encoding/json
  writes for a type validates against the schema generated for it. Given up are null for a nil
  pointer to a named struct (a reference never becomes nullable), bytes that are nil or of fixed
  length (`NilIsGivenUp`), and the names that a nil embedded pointer leaves out but that are
  required all the same (`NilEmbeddedIsGivenUp`). Where no struct has two fields of one name, a
  document validates if and only if it holds none of these (`EncodingValidatesIff`); where one has,
  the schema describes the field that comes last and encoding/json writes the one that lies nearest
  (`RepeatedNameMisleads`).
- `agent/internal/logrot/stream.go:95-97`: bytes appended between the tail pass and the Stat that
  fixes the offset are emitted by neither; nothing is lost if and only if there are none
  (`TailAndFollow`).
- `agent/internal/daemon/manager.go:277-279` logs a port that could not be claimed on restore, but
  `finish` later releases it all the same: with two restored containers on one port the one that
  exits frees the port of the other, which still runs (`FinishReleasesAnothersPort`). The books
  stay right in all runs if and only if there are no two such containers (`PortsAreConservedIff`).
- `master/internal/deploy/manager.go:66-71` and `158-163` promise that the automatic chain never
  retries a failed version and never goes back. Two windows are open to other calls: between a
  BeginDeploy and its recordAttempt, of a manual deploy (`manager.go:154-163`) as of an automatic
  one (`manager.go:627-642`), and between reading the marker and BeginDeploy
  (`manager.go:608-627`). In the first a version that was swept, failed and aborted is started
  again (`UnrecordedStartCanBeRetried`), in the second an older version is started after a newer
  one was recorded and activated (`StalePickCanGoBack`). An automatic start fails to be newer only
  than starts that had not begun or were not recorded when its attempt read the marker
  (`AutoStartsGoForward`), and a run goes forward throughout exactly when no pick is begun that
  such a start has overtaken (`ForwardThroughoutIff`).
- `master/internal/deploy/manager.go:580-592`: a registered build is left behind, with no call under
  way that would take it up, when an attempt fails before it reads the marker, in looking for the
  newest version or in its BeginDeploy (`FailedAttemptCanLeaveBehind`,
  `FailedChoiceCanLeaveBehind`, `FailedBeginCanLeaveBehind`), when the deploy that follows a
  promotion fails in the store or meets a disabled version
  (`master/internal/httpapi/deploy.go:191-199`, `FailedPromotionCanLeaveBehind`), or when
  `auto_deploy` is switched on, which makes no attempt
  (`master/internal/httpapi/environments.go:131-153`, `SwitchedModeCanLeaveBehind`), and in no other
  way (`StepLeavesBehindIff`, `NothingIsLeftBehindIff`). A promotion whose deploy gets through leaves
  none behind (`PromotedAttends`).
- `master/internal/deploy/manager.go:364-368`: the sweep's second look at the version does not keep it
  from arming a deploy again that has just finished and whose flip is not written yet
  (`FinishedDeployCanBeRearmed`), exactly when a completion of it is outstanding
  (`RearmOfFinishedIff`). The job left over changes nothing in the store until its version is put
  in flight again (`LeftOverWritesIff`); then it can abort that deploy (`LeftOverJobCanAbort`), and
  it can take the pull reports meant for another version (`TwoJobsCanWaitForOneReport`), which
  `manager.go:401-403` rules out and which only left-over jobs can do
  (`TwoCandidatesNeedALeftOver`).
- `master/internal/store/deploy.go:369-372` calls the version to roll back to single by construction; a
  flip that demotes an active version and one a fleet still points to leaves two
  (`TwoRollbackTargetsCanBeLeft`), and one at most is left exactly when it demoted one at most
  (`OneRollbackTargetIff`). Its `order by deprecated_at` does not choose between them: they always
  come from one flip (`RollbackTargetsAreOfOneFlip`).
- `master/internal/httpapi/ratelimit.go:40-48`: the sweep of idle buckets goes unnoticed if and
  only if a minute refills a bucket or the burst pays for no call at all
  (`SweepIsTransparentIff`); the limits in use satisfy this.

## Model

| member | source | states |
|---|---|---|
| Messages.RemoveSetRegistriesKeeps | master/internal/agentlink/hub.go:428-436 | coalescing drops exactly the snapshots, keeps everything else in order, and shortens the queue only if there was one |
| CommandQueue.IndexOfFinds | master/internal/agentlink/hub.go:142-151 | the lookup by cmd_id finds the oldest pending command with that id, and finds one if and only if there is one |
| CommandQueue.PushAllTakesPrefix | master/internal/agentlink/hub.go:350-357 | non-blocking pushes fill a channel with the longest prefix that fits and drop the rest |
| CommandQueue.EveryRunIsCoherent | master/internal/agentlink/hub.go:138-185 | in every run of sends, acks, attaches, detaches and writes: never two snapshots pending, no cmd_id twice, the channel within its capacity, and no snapshot pending for or pushed to an untrusted session |
| CommandQueue.SendOnlyReplacesRegistries | master/internal/agentlink/hub.go:138-167 | a send drops no command but older snapshots, adds nothing but its own message, and an id is returned only for a message that is pending afterwards |
| CommandQueue.AckRemovesExactly | master/internal/agentlink/hub.go:170-185 | an ack takes out the one command it names, the oldest, and nothing else, and leaves the session alone |
| CommandQueue.AttachReplays | master/internal/agentlink/hub.go:246-285 | an attach pushes the oldest-first prefix of pending, a trusted preface in front of all work and instead of older snapshots, and keeps every other command |
| CommandQueue.SendReachesSession | master/internal/agentlink/hub.go:138-167 | a send either finds its id pending and pushes that command again, or is refused for want of a trusted session, or leaves exactly the message it was given, with the id, at the end of pending and, unless the channel is full, of the channel |
| CommandQueue.AttachReachesSession | master/internal/agentlink/hub.go:246-285 | an attach leaves an open channel with the first 256 pending messages in order, the preface with its id first when there is one |
| CommandQueue.PendingReachedSession | master/internal/agentlink/hub.go:138-285 | in every run a command that is pending under a live session was pushed to that session, or found its channel full when it was accepted or replayed |
| CommandQueue.SharedIdIffEmpty | master/internal/agentlink/hub.go:389-417 | in every run with real ids two pending messages share an id if and only if neither carries a command |
| CommandQueue.EmptyMessagesShareAnId | master/internal/agentlink/hub.go:389-417 | which happens: two messages without a command both stay pending under the same empty id |
| Hub.Session.PushOut | master/internal/agentlink/hub.go:350-357 | a push to a full channel changes nothing, else appends |
| Hub.NodeQueue.Enqueue | master/internal/agentlink/hub.go:138-167 | the in-place send does what the queue function says; what is newly pending, with the kind, payload and id it was given, goes to the end of the live channel at once unless that holds 256 |
| Hub.NodeQueue.Remove | master/internal/agentlink/hub.go:170-185 | the slice removal takes out the oldest command with the id |
| Hub.NodeQueue.Adopt | master/internal/agentlink/hub.go:246-285 | the old session is closed once; the new channel holds the preface and the pending commands from the oldest on, 256 at most |
| Hub.Hub.Send | master/internal/agentlink/hub.go:138-167 | the answered id's command is pending once, as it was given, and at the end of the live channel unless that was full; only the named node's queue changes; its session stays |
| Hub.Hub.Ack | master/internal/agentlink/hub.go:170-185 | only the named node's queue changes |
| Hub.Hub.Attach | master/internal/agentlink/hub.go:246-285 | the previous session is closed and replaced by one whose channel holds the preface and what was pending, 256 at most; other nodes are untouched |
| Hub.Hub.Detach | master/internal/agentlink/hub.go:340-346 | a stale detach changes nothing, and a detach closes no session |
| Hub.Hub.ConnectedNodes | master/internal/agentlink/hub.go:327-337 | the loop lists every node with a live session, each once, and no other |
| Hub.WithoutRegistries | master/internal/agentlink/hub.go:428-436 | the filtering loop computes the coalesced queue |
| RegistriesService.Service.AttachWithFreshRegistries | master/internal/agentlink/service.go:464-472 | read and attach are one section; a trusted session gets the credentials just read as its first message, an untrusted one gets none |
| RegistriesService.Service.BroadcastRegistries | master/internal/agentlink/service.go:525-539 | every node with a session gets one snapshot of the one read, in its channel at once unless that is full; no other node is touched |
| CmdCache.AcceptsIffNotRecent | agent/internal/link/client.go:480-493 | a non-empty id is accepted if and only if it is not among the last N accepted |
| CmdCache.ReacceptedOnlyAfterNOthers | agent/internal/link/client.go:467-493 | between two acceptances of an id lie at least N acceptances of other ids |
| CmdCache.WindowStaysUnrepeated | agent/internal/link/client.go:467-493 | the ring never holds an id twice |
| CmdCache.Cache.Add | agent/internal/link/client.go:480-493 | ring and set stay in step with the history of accepted ids, the empty id included |
| RegistryStore.CredMapIsLastEntry | agent/internal/daemon/registries.go:34-46 | the credential map of a snapshot holds a host if and only if the snapshot names it, with the login of its last entry |
| RegistryStore.Store.Set | agent/internal/daemon/registries.go:34-46 | a snapshot replaces everything, whatever was there before |
| RegistryStore.Store.Lookup | agent/internal/daemon/registries.go:50-58 | a lookup answers with the last entry of the last snapshot that names the host, and with nothing if none does |
| AgentLinkProtocol.StepKeepsStructure | master/internal/agentlink/hub.go:138-285 | every step of master and agent keeps: the pending snapshot is the newest accepted one, snapshots are accepted in the order read, their ranks ascend along everything the current receive loop will see, and every message is genuine |
| AgentLinkGuarantees.AcceptedInReadOrder | master/internal/agentlink/service.go:464-539 | under regMu the newest snapshot enqueued is the newest one read, in every run |
| AgentLinkAcks.AcksAreHonestIff | agent/internal/link/client.go:388-409 | in every run: whatever was acknowledged, or let go by the Hub, had been executed at every moment, if and only if the current loop never acknowledges a command that was never executed and that a superseded loop is about to execute |
| AgentLinkConvergence.ConvergedThroughoutIff | agent/internal/link/client.go:388-409 | in every run, while covered by a trusted attach with a preface: the newest accepted snapshot is at every moment pending or what the agent uses, if and only if no other one is applied when it is no longer pending, and its ack never arrives while a loop still has it to execute and something else is in use, or after another one was applied over it and not undone |
| AgentLinkConvergence.DeliveringThroughoutIff | agent/internal/link/client.go:388-409 | in every run: the newest snapshot is at every moment in use, about to be executed, or pending and unknown to the process, if and only if no loop applies another one after this process accepted the newest and no loop still has it to execute |
| AgentLinkConvergence.StrandedStays | agent/internal/link/client.go:480-493 | a replay does not repair it: until another snapshot is accepted, the process restarts or forgets the id, or a loop applies the same credentials, the newest snapshot stays unused |
| AgentLinkConvergence.OrderlyRunsConverge | agent/internal/link/client.go:388-409 | when nothing is acknowledged early and superseded loops apply nothing outdated: the newest accepted snapshot is pending or in use and gets through, and whatever the Hub let go was acknowledged and had been executed, through dropped pushes, lost acks, coalescing and reconnects |
| AgentLinkConvergence.QuietRunsAreOrderly | agent/internal/link/client.go:162-241 | if a stream is opened only when every earlier receive loop has put its command down, the run is orderly |
| AgentLinkGuarantees.WorkIsKept | master/internal/agentlink/hub.go:138-185 | in every run a command the Hub accepted stays pending until an ack names it |
| AgentLinkGuarantees.ExecutedOnce | agent/internal/link/client.go:388-409 | in every run, within one agent process, a command accepted by the cache is executed exactly once or is in the hands of the one loop that will, until more than 1024 others were accepted |
| AgentLinkRaces.OutdatedSnapshotCanWin | agent/internal/link/client.go:388-409 | a run that ends with the newest snapshot neither pending nor in use |
| AgentLinkRaces.PendingSnapshotCanBeStranded | agent/internal/link/client.go:388-409 | a run that ends with the newest snapshot pending, known to the process, not in use and in no loop's hands, and whose ack, already under way, takes it out of pending |
| AgentLinkRaces.AcknowledgedWorkCanBeLost | agent/internal/link/client.go:388-409 | a run that ends with a command acknowledged, gone from the Hub and never executed |
| Outbox.Queue.PushMessage | agent/internal/link/outbox.go:96-108 | the message goes to the end; of a queue of 1024 the oldest is dropped for it; the queue is always the last messages pushed, in order and without gaps |
| Outbox.Queue.PopMessage | agent/internal/link/outbox.go:124-130 | takes the head off if it is this message; a pop of anything else changes nothing |
| Outbox.Queue.Drain | agent/internal/link/client.go:361-373 | one drain, with any number of pushes during each send, goes in steps, sends what goes through in queue order and ends on an empty queue or at the first failed send; without pushes it takes a prefix of the queue and the failed message stays at the head |
| Outbox.OrderAndAccounting | agent/internal/link/outbox.go:96-130 | over all sessions sends are in push order and none happens twice; every message pushed is exactly queued, or was sent or dropped as the oldest |
| Outbox.PopRemovesOnlySent | agent/internal/link/client.go:361-373 | a message leaves the queue by its own send or as the oldest of a full queue, even when an overflow drops the head in mid-send |
| Lines.ScanSplits | master/internal/httpapi/alerts.go:690-693 | cutting data at a line start cuts the scanner's tokens in two, when no line reaches the cap |
| Lines.ScanStopsAt | master/internal/httpapi/alerts.go:687-693 | a line of the cap or more, wherever it starts, ends the tokens in front of it |
| Lines.ScanTakesLine | master/internal/httpapi/alerts.go:690-693 | the first token is the data up to the first newline, less one carriage return, and the scan goes on behind it |
| Lines.TooLongIffNotScannable | agent/internal/logrot/stream.go:236-244 | a scan gives up exactly on data with a line of the cap or more |
| NewestFirst.SortIsStable | master/internal/httpapi/alerts.go:718-720 | the sort is newest first, a permutation, and keeps the order of equal instants |
| NewestFirst.StableSortIsUnique | master/internal/httpapi/alerts.go:718-720 | there is only one stable newest-first order |
| NewestFirst.SortSplits | master/internal/httpapi/alerts.go:718-720 | a strictly older part sorts behind the rest, unchanged |
| AlertLog.ParseLine | master/internal/httpapi/alerts.go:695-713 | one line gives its delivery's visible alerts, else its bare alert if visible, else nothing |
| AlertLog.ParseAlertsLog | master/internal/httpapi/alerts.go:687-725 | the loop returns the newest visible events of the data, up to the limit |
| AlertLog.HistoryIsVisible | master/internal/httpapi/alerts.go:396-425 | nothing the visibility rule hides is ever in an answer: under a binding or a requested project every event has that project or none |
| AlertTail.TailIsHistory | master/internal/httpapi/alerts.go:590-653 | enough of the last lines give exactly the whole log's answer when lines come in strictly increasing time |
| AlertTail.TailHasHistoryTimes | master/internal/httpapi/alerts.go:590-653 | when times merely do not decrease, the instants of the answer still agree |
| AlertTail.TailHidesNothing | master/internal/httpapi/alerts.go:555-566 | in any order of times the answer has min(limit, visible events of the whole log) events, all visible, of the bound or requested project or of none, and from the log |
| AlertAnswers.AnswerIsOrigin | master/internal/httpapi/alerts.go:687-772 | what the parse answers is, event by event, the newest of the decoded alerts the caller may see |
| AlertAnswers.NormalizedDescribes | master/internal/httpapi/alerts.go:727-772 | an event has its alert's labels, annotations and times, is active exactly if not resolved and not over, and sorts by delivery, else by start |
| AlertAnswers.TakenAnswers | master/internal/httpapi/alerts.go:555-566 | lines from the end that carry enough for the limit answer for the whole log: as many events as it has alerts the caller may see, up to the limit, each told of once and newest first |
| AlertAnswers.TakenLeavesOlder | master/internal/httpapi/alerts.go:590-653 | when later lines are not older, no alert left out is newer than one told of |
| AlertTail.ReadAlertsTailWindow | master/internal/httpapi/alerts.go:590-653 | for every window, limit and rule: the tenant boundary in project labels; exactly as many of the decoded alerts that a caller may see as the limit allows, each event telling of its alert, newest first, and with ordered lines none newer left out; the three statements above; no byte read twice, the whole log read when the answer is short, at most three sizes of the log parsed |
| AlertTail.ParseCostIsLinear | master/internal/httpapi/alerts.go:571-575 | parsing over all doublings stays within three sizes of the log |
| AlertTail.ParseCostExceedsTwoSizes | master/internal/httpapi/alerts.go:571-575 | two sizes are not always enough |
| AlertTail.OverlongLineHidesTheRest | master/internal/httpapi/alerts.go:687-693 | a whole read answers as if the log ended where a line over the cap starts, and a window that starts in that line as if the log began behind it |
| SchemaCycles.GuardedIffAcyclic | master/internal/httpapi/openapi.go:462-476 | for every type graph: the ranks the generator's termination rests on exist if and only if no cycle gets by without entering the fields of a named struct |
| SchemaCycles.CyclesNestForever | master/internal/httpapi/openapi.go:496-525 | around such a cycle calls nest to any depth, none of them the guarded one |
| SchemaCycles.OnlyFieldsMayCycle | master/internal/httpapi/openapi.go:462-476 | a struct that refers to itself through a field can be ranked, one that embeds itself cannot |
| SchemaShape.ShapeResolves | master/internal/httpapi/openapi.go:411-482 | a type's schema refers to nothing but the names the type mentions |
| SchemaShape.NullableOnce | master/internal/httpapi/openapi.go:555-563 | exactly a plain single type becomes nullable, references are left alone, twice is once |
| SchemaBuilder.Builder.SchemaFor | master/internal/httpapi/openapi.go:411-460 | ends on every graph whose cycles pass through named structs; restores inProgress even on failure, only adds components, all reachable; the schema depends on the type alone; failure means a reachable unsupported kind |
| SchemaBuilder.Builder.StructSchema | master/internal/httpapi/openapi.go:462-482 | the same for structs, entering each named one at most once |
| SchemaBuilder.Builder.CollectFields | master/internal/httpapi/openapi.go:496-534 | members of embedded structs are merged, a later property of a name wins, required names accumulate (what that makes of names and values: SchemaEncoding.NamesOverPaths, SchemaMeaning.SchemaAccepts) |
| SchemaMeaning.SchemaAccepts | master/internal/httpapi/openapi.go:411-482 | for every type and every document: with the components the schema validates the document if and only if it has the type's shape, down to formats, null, elements, members and every field that may not be omitted |
| SchemaEncoding.EncodingValidatesIff | master/internal/httpapi/openapi.go:411-534 | for types whose structs repeat no name: what encoding/json writes validates if and only if it holds none of the cases the schema gives up |
| SchemaEncoding.NamesOverPaths | master/internal/httpapi/openapi.go:496-534 | a name is a property exactly if some field of that name is reached over embedded structs, and required exactly if some such field has no omitempty |
| SchemaEncoding.NilIsGivenUp | master/internal/httpapi/openapi.go:420-443 | the nil pointer to a named struct, nil bytes and bytes of fixed length: encodings that the schema does not validate |
| SchemaEncoding.NilEmbeddedIsGivenUp | master/internal/httpapi/openapi.go:509-519 | a nil embedded pointer leaves out a name that the schema requires |
| SchemaEncoding.RepeatedNameMisleads | master/internal/httpapi/openapi.go:524-531 | of a name that an own and an embedded field share the schema takes the last in order, whatever its depth |
| SchemaComponents.BuildSchemas | master/internal/httpapi/openapi.go:163-176 | over all routes: every schema, with the components, validates exactly the documents of its type, and all encodings but those given up; no dangling reference in the schemas or the components, the components are exactly what is reachable, and it fails if and only if an unsupported kind is |
| SchemaComponents.CompleteIsReachable | master/internal/httpapi/openapi.go:462-482 | with distinct names the described names are exactly the reachable ones |
| SchemaComponents.ComponentsAreDetermined | master/internal/httpapi/openapi.go:164-175 | the order of the routes does not matter to the components |
| DeploySteps.Newest | master/internal/store/versions.go:278-298 | the pick is registered, strictly newer than the marker, and newer than every other such version (in creation times and ids: DeployGuarantees.NewestInTimes) |
| DeployGuarantees.NewestInTimes | master/internal/store/versions.go:278-298 | there is a pick exactly if a registered version was created after the marker, or at its time with a greater id; it is one, and every other registered version was created before it or at the same time with a smaller id |
| DeploySteps.ReportKeepsJobs | master/internal/deploy/manager.go:389-434 | a report keeps every fan-out either the job of its version, or ended in one way, with pending equal to fan-out less reported |
| DeployGuarantees.StepKeeps | master/internal/deploy/manager.go:191-234 | every step keeps the jobs in order, one prepulling and one active version per environment, fleets, starts, picks and open calls on versions of their own environment, and no marker read ahead of the marker |
| DeployForward.AutoStartsGoForward | master/internal/deploy/manager.go:593-701 | in every run an automatic start was created later than an earlier start of its environment, or at the same time with a greater id, unless that one had not begun or was not recorded when the attempt read the marker |
| DeployForward.ForwardThroughoutIff | master/internal/deploy/manager.go:608-642 | in every run all automatic starts are newer than everything put in flight before them if and only if no attempt begins a pick that a start it could not see has overtaken |
| DeployForward.UninterruptedGoesForward | master/internal/deploy/manager.go:593-642 | in particular when no pick is begun after another start and none is made while an attempt waits to be recorded |
| DeployForward.UncoveredIsUnrecorded | master/internal/deploy/manager.go:158-163 | in every run a start the marker does not cover is one whose call stands between BeginDeploy and recordAttempt |
| DeployForward.PickedAgainIff | master/internal/deploy/manager.go:501-503 | in every run a build that was started and is registered again, with nothing newer, is picked again by an attempt if and only if the marker the attempt read does not cover its start, and then that start had not begun or was not recorded when the marker was read |
| DeployChain.StepLeavesBehindIff | master/internal/deploy/manager.go:580-674 | a step leaves a registered build newer than the marker behind, in an automatic environment with a fleet, nothing in flight and no attempt, abort, pick, record or promotion outstanding that would take it up, if and only if it is an attempt that fails at one of its three points, the deploy of a promotion that fails or is refused, or the mode switched on, with such a build waiting |
| DeployChain.LeftBehindHasCause | master/internal/deploy/manager.go:593-637 | in every run a build that is left behind has been so ever since such a step |
| DeployChain.NothingIsLeftBehindIff | master/internal/deploy/manager.go:580-674 | a run leaves no build behind if and only if it takes no such step |
| DeployGuarantees.FanOutEndsOnce | master/internal/deploy/manager.go:191-234 | in every run a fan-out ends at most once, by activation, abort or replacement, and stays so |
| DeployGuarantees.LiveOrEnded | master/internal/deploy/manager.go:389-434 | a fan-out is the job of its version if and only if it has not ended, and a job still waits for someone |
| DeployGuarantees.ActivationIsEarned | master/internal/deploy/manager.go:389-470 | a version becomes active only by a rollback of a deprecated one, or while prepulling when every node of one of its fan-outs reported the image pulled since it was armed |
| DeployLeftovers.CreditIsDeterminedIff | master/internal/deploy/manager.go:396-410 | map order cannot matter to a report if and only if at most one job of the image waits for the node |
| DeployLeftovers.TwoCandidatesNeedALeftOver | master/internal/deploy/manager.go:396-410 | in every run whose fan-outs ask nodes of the version's environment, two jobs that could take one report are of one environment and one of them is left over from a deploy that has ended |
| DeployGuarantees.FlipWindow | master/internal/store/deploy.go:204-213 | after a flip the version is the only active one; deprecated are exactly the one that was active and those registered that a fleet pointed to; older ones are disabled, every fleet in the regions points to it, and nothing else changes anywhere |
| DeployGuarantees.OneRollbackTargetIff | master/internal/store/deploy.go:369-372 | there is one version at most to roll back to if and only if the flip demoted one at most |
| DeployGuarantees.RollbackTargetsAreOfOneFlip | master/internal/store/deploy.go:372-385 | in every run all versions there are to roll back to in an environment were demoted by one flip and have been deprecated ever since, so the order by deprecated_at does not choose between them |
| DeployRaces.UnrecordedStartCanBeRetried | master/internal/deploy/manager.go:153-163 | a run in which a build started by hand, swept, failed and aborted before its attempt is recorded is started again automatically |
| DeployRaces.StalePickCanGoBack | master/internal/deploy/manager.go:608-627 | a run in which a pick is begun after a newer build was started, recorded and activated |
| DeployRaces.LaterBuildIsStarted | master/internal/deploy/manager.go:593-701 | a run in which the build created later has the smaller id: it is the one started, and the other is passed over |
| DeployRaces.FailedAttemptCanLeaveBehind | master/internal/deploy/manager.go:593-602 | a run in which an attempt that fails to find its environment leaves a build behind |
| DeployRaces.FailedChoiceCanLeaveBehind | master/internal/deploy/manager.go:612-625 | a run in which one that fails to look for the newest version does |
| DeployRaces.FailedBeginCanLeaveBehind | master/internal/deploy/manager.go:627-636 | a run in which one whose BeginDeploy fails does |
| DeployRaces.SwitchedModeCanLeaveBehind | master/internal/httpapi/environments.go:131-153 | a run in which switching the mode on leaves a build behind |
| DeployRaces.FailedPromotionCanLeaveBehind | master/internal/httpapi/deploy.go:191-199 | a run in which the deploy of a promotion, failing in the store, leaves a build behind |
| DeployRaces.FinishedDeployCanBeRearmed | master/internal/deploy/manager.go:352-384 | a run in which a sweep before the flip is written leaves an active version with a job |
| DeployRaces.LeftOverJobCanAbort | master/internal/deploy/manager.go:486-511 | a run in which that job's timeout aborts a later deploy of the version, before it is armed |
| DeployRaces.TwoJobsCanWaitForOneReport | master/internal/deploy/manager.go:396-410 | a run in which that job and the next version's wait for one report |
| DeployRaces.TwoRollbackTargetsCanBeLeft | master/internal/store/deploy.go:236-253 | a run in which a flip demotes the active version and one a fleet was pointed to |
| DeployLeftovers.StepLeavesOverIff | master/internal/deploy/manager.go:191-234 | a job is left over exactly by arming a version that is not prepulling, or by writing the completion of a version that was armed again |
| DeployLeftovers.RearmOfFinishedIff | master/internal/deploy/manager.go:352-384 | arming a version again makes it active with a left-over job, once a completion is written, if and only if it is prepulling and the completion is the activation of a fan-out of it |
| DeployLeftovers.CompletionWritesIff | master/internal/store/deploy.go:170-190 | a completion changes the store if and only if its write succeeds and its version is prepulling |
| DeployLeftovers.LeftOverWritesIff | master/internal/deploy/manager.go:454-511 | in every run, after its version has left prepulling, what a fan-out writes changes the store if and only if the version was put in flight again since and still is |
| DeployManager.Store.BeginDeploy | master/internal/store/deploy.go:55-131 | each state of the version has its answer; only in an environment with a fleet and nothing in flight does a registered or deprecated one begin, and then it alone changes |
| DeployManager.Store.SwitchMode | master/internal/httpapi/environments.go:131-153 | the mode changes and nothing else: no attempt follows |
| DeployManager.Store.ActivateVersion | master/internal/store/deploy.go:214-367 | the three updates and the repoint are one flip, of a deploy or a rollback; refused exactly from another state, or when no fleet of the environment is in the regions |
| DeployManager.Store.AbortDeploy | master/internal/store/deploy.go:170-190 | back to registered if still prepulling, else nothing |
| DeployManager.Store.NewestRegisteredAfter | master/internal/store/versions.go:278-298 | in creation times and ids: the answer is beyond the marker and every other registered version of the environment is older, or of the same time with a smaller id; none exactly when none is beyond the marker |
| DeployManager.Manager.RecordAttempt | master/internal/deploy/manager.go:679-689 | the marker becomes that of the version if it was created after it, or at its time with a greater id, and is left alone otherwise, as every other marker is |
| DeployManager.Manager.StartJob | master/internal/deploy/manager.go:191-234 | a failed query changes nothing; targets arm a job that waits for exactly them, or replace one; none completes the deploy at once; exact new state, and the recursion through the chain ends |
| DeployManager.Manager.Activate | master/internal/deploy/manager.go:454-470 | exact new state: a version in flight is flipped to and an attempt follows; otherwise, or when the write fails, store, jobs and markers are as they were |
| DeployManager.Manager.Abort | master/internal/deploy/manager.go:504-511 | exact new state: registered again if still prepulling and the write succeeds, and an attempt in any case |
| DeployManager.Manager.BeginAndRecord | master/internal/deploy/manager.go:153-163 | the deploy begins as the store answers, and every successful answer moves the marker |
| DeployManager.Manager.TryAutoDeploy | master/internal/deploy/manager.go:593-664 | exact new state: the newest waiting version begun, recorded and launched, or nothing but the attempt used up, also when a lookup or the BeginDeploy fails; ends because fewer versions newer than the marker remain |
| DeployManager.Manager.Rollback | master/internal/deploy/manager.go:536-554 | a deprecated version of the environment becomes active by one flip over the regions, or nothing changes |
| DeployManager.Manager.HandlePullReport | master/internal/deploy/manager.go:389-449 | progress changes nothing; else some waiting job of the image is credited if there is one, and the exact new state follows: the node taken off what is pending, or the job removed and its version flipped to, or rolled back |
| DeployManager.Manager.Expire | master/internal/deploy/manager.go:486-511 | a timeout without a job changes nothing, else the job is removed and its version rolled back; exact new state |
| DeployManager.Manager.Deploy | master/internal/deploy/manager.go:153-187 | exact answer and new state; a deploy that is refused or fails in the store changes nothing; else the version is in flight and the marker no longer behind it, and it is launched exactly if it began, or was in flight and has lost its job |
| DeployManager.Manager.Promote | master/internal/httpapi/deploy.go:191-204 | exact new state: the row, new or the registered one that is there, and then its deploy, which may change nothing more |
| DeployManager.Manager.SweepOrphans | master/internal/deploy/manager.go:352-384 | every version found prepulling is looked at once, in some order, and re-armed exactly if it then still is and has no job; afterwards no version is in flight without a job but those whose nodes could not be asked for or whose completion could not be written |
| DeployManager.LaunchedGoesTo | master/internal/deploy/manager.go:191-234 | however far a start goes through immediate flips and the chain, it goes in deploy steps and leaves no store write or attempt outstanding |
| DeployManager.ActivatedGoesTo | master/internal/deploy/manager.go:454-470 | the same of an activation |
| DeployManager.AbortedGoesTo | master/internal/deploy/manager.go:504-511 | the same of an abort |
| DeployManager.ChainGoesTo | master/internal/deploy/manager.go:593-674 | the same of an automatic attempt, which uses up one kick |
| DeployManager.ChainAttends | master/internal/deploy/manager.go:593-674 | an attempt that meets no failure leaves no build behind in any environment, however many immediate flips follow |
| DeployManager.ChainStartsNewest | master/internal/deploy/manager.go:593-664 | an attempt that gets through, in an automatic environment with a fleet and nothing in flight, begins and records the version created last beyond the marker, by id among equals, and launches it |
| DeployManager.ChainRests | master/internal/deploy/manager.go:593-637 | in a manual environment, with nothing beyond the marker, a deploy in flight, no fleet or a failure on the way, an attempt does nothing but be used up |
| DeployManager.ReportedGoesTo | master/internal/deploy/manager.go:389-449 | the same of a pull report, whichever job is credited |
| DeployManager.ExpiredGoesTo | master/internal/deploy/manager.go:486-511 | the same of a timeout |
| DeployManager.DeployedGoesTo | master/internal/deploy/manager.go:153-187 | the same of a manual deploy |
| DeployManager.PromotedGoesTo | master/internal/httpapi/deploy.go:191-199 | the same of a promotion, whose deploy is not left outstanding |
| DeployManager.PromotedAttends | master/internal/httpapi/deploy.go:191-199 | a promotion whose deploy, and what follows it, meets no failure leaves no build behind in any environment |
| PortPool.Pool.Acquire | agent/internal/ports/pool.go:36-46 | the lowest free port, or none when the range is full |
| PortPool.Pool.AcquireSpecific | agent/internal/ports/pool.go:50-61 | granted if and only if in range and free |
| PortPool.Pool.Release | agent/internal/ports/pool.go:64-75 | succeeds if and only if the port was in use |
| Lifecycle.TerminalIsDeadEnd | agent/internal/lifecycle/state.go:31-43 | terminal states are exactly the dead ends, reachable from every other state, and every transition goes deeper |
| Lifecycle.LegalMoves | agent/internal/lifecycle/state.go:35-43 | which moves are legal, one by one |
| Lifecycle.Machine.To | agent/internal/lifecycle/state.go:85-103 | an illegal move changes nothing, a legal one is recorded |
| Lifecycle.PathsAreShort | agent/internal/lifecycle/state.go:35-43 | whatever is asked of a machine: at most five moves, no state twice, nothing after a terminal state |
| Supervision.StepKeeps | agent/internal/daemon/manager.go:939-1171 | every step of every interleaving keeps the port books and every server's record in order |
| SupervisionGuarantees.PortsAreConservedIff | agent/internal/daemon/manager.go:246-294 | in all runs the ports in use are exactly those held between acquire and release and no two servers hold the same one, if and only if the restored containers had distinct ports in the range |
| SupervisionGuarantees.FinishReleasesAnothersPort | agent/internal/daemon/manager.go:1103-1144 | whenever two restored containers share a port in the range, a run in which one exits and frees the port while the other is still supervised on it |
| SupervisionGuarantees.ReleaseIsOfOwnPort | agent/internal/daemon/manager.go:1103-1144 | a port leaves the books only when the server that holds it gives it back |
| SupervisionGuarantees.StatesOnlyDeepen | agent/internal/daemon/manager.go:1015-1171 | over all interleavings a server's state only moves down the transition graph |
| SupervisionGuarantees.EventsAndEnds | agent/internal/daemon/manager.go:1103-1171 | at most one ready and one failed event per server, failed exactly in that state, and a server that is over is terminal and holds no port |
| SupervisionGuarantees.EvictionIsSafe | agent/internal/daemon/manager.go:326-351 | only a terminal server that has given its port back is evicted |
| SupervisionGuarantees.FinishEndsTerminal | agent/internal/daemon/manager.go:1103-1126 | the decision taken at exit ends in a terminal state whatever the commands do in between |
| SupervisionGuarantees.OverIsAsExited | agent/internal/daemon/manager.go:1103-1144 | in every run a server that is over had failed before it ran, or is stopped exactly if its exit was watched to the end, a stop was requested or the code was 0, and it had not failed before, whatever the commands did in between; else it is failed |
| AgentManager.Manager.Restore | agent/internal/daemon/manager.go:246-294 | every container found running is supervised again at its recorded state and port, the pool holds exactly their ports in the range |
| AgentManager.Manager.Start | agent/internal/daemon/manager.go:455-485 | a known id is left alone, a rejecting node fails the server, else it is to be launched |
| AgentManager.Manager.AcquirePort | agent/internal/daemon/manager.go:939-950 | the port asked for if it is in range and free, else the lowest free one; none exactly when it cannot be had |
| AgentManager.Manager.Launch | agent/internal/daemon/manager.go:939-1012 | runs on the port asked for, or the lowest free one, exactly when there is one and socket and container come up; else it has failed and the pool is as before |
| AgentManager.Manager.Finish | agent/internal/daemon/manager.go:1103-1144 | a server already terminal keeps its state; else it is stopped without a failed event exactly if there was no watch error and a stop was requested or the code is 0, and otherwise failed with exactly one; over, with the port given back |
| AgentManager.Manager.OnReady | agent/internal/daemon/manager.go:1042-1046 | only a starting server becomes ready; a repeated ready changes nothing |
| AgentManager.Manager.OnGraceExpired | agent/internal/daemon/manager.go:1048-1056 | only a starting server fails |
| AgentManager.Manager.OnStop | agent/internal/daemon/manager.go:1058-1073 | the first stop drains a ready or allocated server, later ones change nothing |
| AgentManager.Manager.AllocateServer | agent/internal/daemon/manager.go:512-552 | only a ready server becomes allocated, anything else is left alone |
| AgentManager.Manager.Drain | agent/internal/daemon/manager.go:743-777 | a ready or allocated server drains, anything else is left alone |
| AgentManager.Manager.Snapshot | agent/internal/daemon/manager.go:326-351 | dropped is exactly what is expired and terminal, and it held nothing; the rest is unchanged |
| Silences.SilenceCoversWhatMuteCovers | master/internal/amsilence/amsilence.go:496-507 | the posted silence suppresses exactly the alerts the mute is shown to cover, an alert without a project label included |
| Silences.PassConverges | master/internal/amsilence/amsilence.go:173-279 | after one pass an active mute is backed by its own silence within tolerance exactly when it was, or when its silence is still worth posting; no unbacked silence of ours older than the grace is left; operators' silences are untouched |
| SilencePass.MutesAreSilenced | master/internal/amsilence/amsilence.go:173-242 | after a pass every mute in force has a running silence of its own unless it had none and ends within this second; it ends within 1,000,000,000 ns of the mute, or a year or more from now, and suppresses exactly the alerts with its name, region and project |
| SilencePass.PassIsPlain | master/internal/amsilence/amsilence.go:173-311 | row by row and silence by silence: which rows are posted for, in place or under a new id, with what start, end, author, matchers and comment, in whole seconds; which silences end now; that every other row and silence is as it was |
| SilencePass.NothingIsAstray | master/internal/amsilence/amsilence.go:245-279 | after a pass no running silence signed birdman: that is two minutes old is left without a mute in force |
| Silences.UnchangedIffDone | master/internal/amsilence/amsilence.go:173-230 | a pass changes nothing if and only if every active mute is backed, or ends within the current second so that its post is refused, and there is no orphan |
| Silences.SecondPassIsQuiet | master/internal/amsilence/amsilence.go:173-279 | when the first pass could back every mute, an immediate second pass issues no POST and no DELETE |
| Silences.UpsertBacks | master/internal/amsilence/amsilence.go:118-133 | the call after an upsert leaves the mute backed by a silence the sweep will spare, unless its end has passed |
| Silences.DeleteLeavesOthers | master/internal/amsilence/amsilence.go:138-146 | removing a mute and its silence leaves every other mute as it was |
| SilenceMirror.Alertmanager.PostSilence | master/internal/amsilence/amsilence.go:379-408 | a silence that runs is replaced under its id or ended for a new one; an id that is gone or over is refused or given a new silence; a silence that has ended is refused |
| SilenceMirror.Mirror.MuteUpserted | master/internal/amsilence/amsilence.go:118-133 | one POST with the stored id and, when a responding alertmanager refuses it, one without leave the one silence that says what the mute says, unless that would be over already; unreachable, nothing changes |
| SilenceMirror.Mirror.MuteDeleted | master/internal/amsilence/amsilence.go:138-146 | the silence of the removed mute is expired if the call gets through |
| SilenceMirror.Mirror.ReconcileMute | master/internal/amsilence/amsilence.go:200-215 | a POST exactly for a mute in force that is not silenced within the tolerance, and nothing when alertmanager is unreachable |
| SilenceMirror.Mirror.OrphanSweep | master/internal/amsilence/amsilence.go:245-279 | ends exactly the running silences signed birdman: and two minutes old that no mute in force names, or a part of them when alertmanager goes away |
| SilenceMirror.Mirror.ReconcileOnce | master/internal/amsilence/amsilence.go:173-197 | a pass that is not degraded is the whole pass, row by row and silence by silence; operators' silences survive any failure |
| RateLimiter.TokensStayInBounds | master/internal/httpapi/ratelimit.go:35-63 | in every run tokens stay between zero and the burst |
| RateLimiter.IntervalIsBounded | master/internal/httpapi/ratelimit.go:35-63 | in any stretch of a run no more places at which a call of the key is allowed than burst plus rate times its length |
| RateLimiter.SweepIsTransparentIff | master/internal/httpapi/ratelimit.go:40-48 | every decision in every run is that of the limiter that never sweeps, if and only if the burst is less than one token or a minute refills it |
| RateLimiter.TokenBuckets.Allow | master/internal/httpapi/ratelimit.go:35-63 | in tokens and seconds: what the bucket holds after the time since its last use, what the decision is and leaves, and that the sweep forgets exactly the buckets idle for more than a minute, when it is due |
| LogStream.ReadLines | agent/internal/logrot/stream.go:221-245 | the ring holds the last lines after any source; fails if and only if a line is too long |
| LogStream.Tail | agent/internal/logrot/stream.go:61-98 | the concatenated chunks are the last min(n, 10000, all) lines over all sources, each with its newline, whatever the chunk size; fails if and only if a line has 1 MiB or more |
| LogStream.AllLinesSplit | agent/internal/logrot/stream.go:61-98 | the lines are those of the sources, in the order of the sources |
| LogStream.RenderSplits | agent/internal/logrot/stream.go:79-94 | they are emitted one behind the other, each with one newline byte |
| LogStream.FlatSplits | agent/internal/logrot/stream.go:79-94 | and so are the chunks |
| LogStream.StreamFile | agent/internal/logrot/stream.go:180-218 | the chunks are the file, and the size returned is its length |
| LogStream.FollowFile | agent/internal/logrot/stream.go:125-176 | of an append-only file every byte from the starting offset to the cursor is emitted once, in order, while the file grows between and during reads; the cursor gets past all that a poll with reads enough has seen |
| LogStream.TailAndFollow | agent/internal/logrot/stream.go:61-113 | the tail holds the last lines of the sources; it and what following emits leave out exactly the bytes appended in between, and lose nothing if and only if there are none |
| ImageGC.GC.Touch | agent/internal/imagegc/imagegc.go:79-96 | at most eight refs, and one with the oldest use gives way |
| ImageGC.GC.Untouch | agent/internal/imagegc/imagegc.go:102-109 | the ref loses its place, the others keep theirs |
| ImageGC.ProtectsTheList | agent/internal/imagegc/imagegc.go:79-109 | after any run of touches and untouches under an increasing clock the protected refs are exactly those of a list in which a touch moves to the front and an untouch takes out |
| ImageGC.TouchesProtectTheMostRecent | agent/internal/imagegc/imagegc.go:79-96 | when nothing is untouched these are the eight refs touched most recently |
| ImageGC.GC.RunOnce | agent/internal/imagegc/imagegc.go:140-182 | the in-place filter leaves the removable images; only listed images that are neither used nor protected are tried, each as often as listed, the oldest first and none while an older one is left; all of them when usage stays above the watermark, each only while it is; deleted are the names whose delete goes through, in that order |
| ImageGC.PassIsSafe | agent/internal/imagegc/imagegc.go:140-182 | no used or protected image is deleted, and everything removable that is older than a tried image was tried |

## Left out

Assumed of the surroundings:

- Stamped command ids, preface ids and silence ids are fresh (uuids); containers have distinct ids.
- A store transaction is one step. In particular BeginDeploy's busy check and its update are, although the source takes no lock on the environment's other rows (`master/internal/store/deploy.go:60-110`).
- An automatic attempt finds its environment and reads the marker in one step, and its two queries for the newest version are one; other calls come in between, before its BeginDeploy, and before recordAttempt. A promotion is given the row it makes or finds.
- AgentLinkProtocol models one node and one agent process at a time; a master restart loses the pending queue and is not part of this model.
- In AgentLinkProtocol only the loop of the newest stream receives; a superseded loop, which may still take a message its stream had buffered before its context ended, is modelled with the one command it already holds.
- Time does not go backwards between calls of the rate limiter, which reads its clock before it takes its lock, and strictly increases between touches of an image; the alert log does not shrink while it is read.
- RFC 3339, JSON, bytes.TrimSpace, reflection on types and the byte order of uuids are parameters or plain orders; host names are lower-cased as ASCII.

Stated weaker than the source could be read, or in a different form:

- AgentLinkConvergence.OrderlyRunsConverge: restricted to orderly runs, because the statement is false of the others (see above).
- DeployManager.Manager.Deploy: a method runs without interruption; the step system has its BeginDeploy and recordAttempt as steps others can come between. A timeout may come at any time, which includes the timer of a job that has just been replaced.
- DeployManager.Manager.TryAutoDeploy: run without interruption, its branches for a pick that has meanwhile become active or prepulling are unreachable and absent; the step system has them, adopting an orphan being a step that arms the version. The count of skipped builds is not computed.
- DeployManager.Manager.Rollback: of several deprecated versions any one may be taken, as the query leaves open among equal times of deprecation.
- DeployManager.Manager.StartJob: what the node query answers is given per version for one call, which loses nothing because one call starts a version at most once.
- SupervisionGuarantees.EventsAndEnds: per stay of a server in the map; after its eviction the same id starts anew.
- ImageGC.GC.RunOnce: candidates of equal age keep their order, where sort.Slice may choose any.
- SchemaBuilder.Builder.CollectFields: required names are kept as a multiset, where the source sorts them.
- Silences.PassConverges: one pass sees one instant and one content of the mute table, and storing a silence id does not fail.

Not modelled:

- gRPC, TLS, containerd, HTTP and file system calls, beyond what they do to the state above.
- Of encoding/json: types with a MarshalJSON of their own other than time.Time, the `,string` option, and its choice between fields of one name; an embedded struct of an unexported type, whose fields the schema leaves open.
- Logging, metrics and events other than ready and failed, image cleanup after a flip, warnings about empty fleets.
- Resume's marker reconstruction from events, deletion of environments and projects.
- Alert files truncated during a read and logs truncated while being followed.
- The outbox's wake-up channel, so whether a queue is drained eventually.
- The matchmaker, scope and binding handlers, the MCP tools, configuration, the panel and the SDKs: plumbing, or claims that one branch settles.
