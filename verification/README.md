# Drake inventory and agent verification

A Dafny model of the parts of Drake that have to be right while everything around them fails, with machine-checked
proofs of what they guarantee. `dafny verify dfyconfig.toml` checks the whole project.

## What is modelled

**Inventory replication.** An agent in a Kubernetes cluster lists every collection, streams the lists as a snapshot
(`begin`, numbered `page`s, `complete`) and then ships watch events in batches. Messages carry a sequence number of
the agent; requests and answers may be lost, repeated and delayed without bound, the process may crash at any point
and restart from the last number it stored. The server keeps, per cluster, a writer row, agent rows, snapshots with
pages and staging, a projection that never forgets an object, and a change log; every message is one transaction, a
refusal may call for a second one, and housekeeping runs in between.

- `Inventory`: records, watch events, messages. `Projection`: the table and its log, and the plain map it refines.
- `Server`: one function per transaction, and the runs they make. `Accounting`, `ServerInvariants`, `ServerTheorems`:
  what holds of every run, for arbitrary messages from arbitrary agents. `Answers`: what each message is answered,
  redelivered ones included, and what it writes. `Effects`, `Retention`: the columns and log entries written, and how
  long an entry is retained.
- `Database`, `Ingest`, `Maintenance`: the tables as mutable fields; endpoints and housekeeping as methods with the
  loops of the code, proved equal to those functions.
- `Replication`: the whole system with its network as a next-state relation. `ReplicationInvariants`,
  `ReplicationAgentSteps`, `ReplicationServerSteps`, `ReplicationTheorems`: the inductive invariant and the main
  results. `Witness`: the sessions they speak about exist. `Recovery`: how long a lagging agent needs. `Convergence`:
  nothing wedges.
- `Transport`, `Engine`: the retrying client and the sync engine as objects. `EngineSteps`, `EngineRuns`: its methods
  are steps, and whole snapshots are paths, of the replication model's agent. `SnapshotRoundTrip`: what the engine
  streams is what the server applies.

**Certificate renewal.** `Text`, `StateDirectory`, `IdentityStore`, `Pruning`: the file store, one atomic file
operation at a time. `KeyServer`: the server's side, prepare and activate. `Renewal`: the two-phase exchange with
lost requests and answers, and with crashes at any instant. `RenewalTiming`: the delay in 64-bit nanoseconds.

**Two smaller pieces.** `Waterfall`: the trace layout. `HealthRules`, `HealthTheorems`: health verdicts.
`HealthLevels`, `HealthText`: what each level and each reason means, over the record's own fields, kind by kind.

Main results: `ReplicationTheorems.Agreement`, `DrainedMeansEqual` and `NeverAGap`; `ServerTheorems.AppliedIsExact`,
`ReplayIsHarmless`, `LogExplainsTable`, `EventsNeedTheCompleter` and `CompletedByItsBeginnerIff`;
`Answers.RedeliveredIsAnswered`; `Retention.RetainedIff`; `Maintenance.RunInventoryMaintenance`;
`Recovery.RecoveryTime`; `Convergence.NothingWedges`; `EngineRuns.SnapshotRun`; `SnapshotRoundTrip.PlanIsApplied`;
`Renewal.Lives`; `Pruning.PicksDifferIff`; `Waterfall.LayoutIsExact` and `BarIsToScale`;
`HealthTheorems.ProjectionHealth` and the levels of `HealthLevels`.

## Where the code differs from what is said about it

- A refused batch that was merely not fresh leaves no durable mark: only gaps, stale and torn snapshots lead to a
  demand (router_ingest.py:943-954; `ServerTheorems.NotFreshLeavesNoMark`, and exactly when in `RefusalIsDurableIff`).
  The refusal lasts all the same (`NotFreshHoldsUntilComplete`).
- A demand discards its snapshot unconditionally and leaves the pending id pointing at it (router_ingest.py:218-226).
  Every proof allows for that; besides such a demand a cap of 0 alone leaves the id dangling
  (`ServerTheorems.PendingDanglesIff`).
- A pending bundle that cannot be read costs its marker (renewal.go:81-86). When the server has promoted the key
  already, nobody holds the trusted key any more (`Renewal.UnreadBundleLocksOut`, and exactly when in
  `IdentityStore.DroppingIsSafeIff` and `Renewal.Lives`).
- Pages and completes find a snapshot by its uid, so the writer that completes a snapshot need not have begun it
  (`ServerTheorems.CompletedByASuccessor`): it did exactly when nobody was enrolled in between
  (`CompletedByItsBeginnerIff`).
- "Older generations can never complete" is true, but the check for it is never reached
  (`ServerTheorems.GenerationRefusalsUnreachable`).
- Remaining certificate lifetimes from 2^62 ns on make the renewal delay wrap (`RenewalTiming`); the bound 2^62 itself
  already wraps.
- Pruning picks a removed bundle again when too many bundles are dated a day or more ahead
  (`Pruning.FutureBundleSurvives`); `Pruning.PicksDifferIff` says exactly when.
- Spans that lead into a cycle of parent ids are dropped from the waterfall (`Waterfall.CycleIsNotDrawn`): a root is
  a span whose parent is missing or itself. `LayoutIsExact` says which spans are drawn.
- Removing in batches never ends for a configured batch size of 0: the loops stop when a batch comes back smaller than
  the batch size. With 0 a turn changes nothing and the test never succeeds (`Maintenance.DrainOneBatch`,
  `ForgetUpTo`); with 1 or more the loops are proved to end. Nothing in the settings checks it.

## Model

| member | source | states |
|---|---|---|
| ReplicationTheorems.Agreement | apps/cluster-agent/internal/engine/engine.go:228-314 | In every reachable state of a live watch session, whatever was lost, repeated, delayed, refused, crashed, expired or pruned before, and for every collection: the active projection, followed by the batch in flight, the local batch and the queue, is the collection at the version its watcher has reached. |
| ReplicationTheorems.DrainedMeansEqual | apps/cluster-agent/internal/engine/engine.go:349-493 | Once nothing is in flight, batched or queued and every watcher is at the head of its log, the projection restricted to a listed collection equals the cluster, and it is empty for any other collection. |
| ReplicationTheorems.NeverAGap | apps/api/src/drake_api/agents/router_ingest.py:332-362 | No copy of any message of ours, from this process or an earlier one, delivered at any time, is answered with a sequence gap; what was acknowledged or stored is never ahead of the server, and no non-begin message is more than one ahead. |
| ReplicationTheorems.OpenedOnce | apps/api/src/drake_api/agents/router_ingest.py:404-429 | A snapshot uid of ours that was opened once is never opened again, not even after maintenance has pruned its row. |
| ReplicationTheorems.Reachable | apps/cluster-agent/internal/engine/engine.go:198-225 | The inductive invariant of the whole system holds in every state of every behaviour. |
| ReplicationTheorems.ActInv | apps/cluster-agent/internal/engine/engine.go:132-196 | Every single action of agent, network, server, other agents, maintenance or cluster keeps that invariant. |
| ReplicationTheorems.AgentStepRunning | apps/cluster-agent/internal/engine/engine.go:227-493 | Every step of the agent process, crash and restart included, keeps the facts about sessions, sequence numbers and the mirrored snapshot. |
| ReplicationTheorems.UnappliedIsMissing | apps/cluster-agent/internal/engine/engine.go:449-493 | The server lacks at most one batch of the running session, and it is exactly the one request that has no answer yet. |
| ReplicationTheorems.NothingIsTakenBack | apps/api/src/drake_api/agents/router_ingest.py:193-226 | No step takes back a message, an answer or a demand; a delivery leaves exactly the demand its refusal calls for, and counts as answered exactly if it was below 400. |
| ReplicationTheorems.MessagesFit | apps/api/src/drake_api/agents/router_ingest.py:162-185 | In every behaviour each page and batch of ours is within the bounds of the server's message schema: between 1 and 500 items, pages numbered from 1; the queue never exceeds 2048. |
| ReplicationInvariants.EnrolledInv | apps/api/src/drake_api/agents/router_internal.py:135-148 | The moment a never-used agent is enrolled satisfies the invariant, whatever history the cluster's rows have. |
| ReplicationAgentSteps.StartCycleInv | apps/cluster-agent/internal/engine/engine.go:227-263 | Opening a new cycle at any time, with old copies still in the network, keeps the invariant. |
| ReplicationAgentSteps.ListCollectionInv | apps/cluster-agent/internal/engine/engine.go:316-344 | Adding a listed collection keeps "what was taken equals the collections at the noted versions". |
| ReplicationAgentSteps.SendPageInv | apps/cluster-agent/internal/engine/engine.go:270-285 | Sending the next page keeps it, and the page number, running total and sequence number agree with the session. |
| ReplicationAgentSteps.SendCompleteInv | apps/cluster-agent/internal/engine/engine.go:304-310 | Sending the complete keeps it; the announced totals are those of the pages sent. |
| ReplicationAgentSteps.ReceiveAckInv | apps/cluster-agent/internal/engine/engine.go:173-196 | An answer, with or without the number being stored, keeps it; the answer to a complete starts the watchers at the listed versions. |
| ReplicationAgentSteps.WatchPushInv | apps/cluster-agent/internal/engine/engine.go:386-436 | Queueing the next change of a collection advances that collection by exactly that change. |
| ReplicationAgentSteps.TakeInv | apps/cluster-agent/internal/engine/engine.go:476-481 | Moving an event from the queue to the batch changes nothing of what was taken from the cluster. |
| ReplicationAgentSteps.FlushInv | apps/cluster-agent/internal/engine/engine.go:455-475 | Sending the batch keeps it: the batch becomes the session's next. |
| ReplicationAgentSteps.StopInv | apps/cluster-agent/internal/engine/engine.go:205-225 | Failing, crashing and restarting from the stored number keep it. |
| ReplicationServerSteps.DeliverCopyInv | apps/api/src/drake_api/agents/router_ingest.py:387-957 | Delivering any copy of any message ever sent keeps the invariant. |
| ReplicationServerSteps.PageReplies | apps/api/src/drake_api/agents/router_ingest.py:513-586 | In a live system our page is never a gap and never torn, and it changes the server only when accepted. |
| ReplicationServerSteps.CompleteReplies | apps/api/src/drake_api/agents/router_ingest.py:648-722 | In a live system our complete is never a gap; one that passes the checks is the next message of its session. |
| ReplicationServerSteps.CompleteIsNext | apps/api/src/drake_api/agents/router_ingest.py:654-722 | And that session is the one opened last. |
| ReplicationServerSteps.EventsReplies | apps/api/src/drake_api/agents/router_ingest.py:934-957 | In a live system our batch is never a gap; one that passes is exactly the next batch of the session that is mirrored. |
| ReplicationServerSteps.CompletedView | apps/api/src/drake_api/agents/router_ingest.py:696-724 | A complete of ours that is applied makes the projection the snapshot of its session. |
| ReplicationServerSteps.ForeignInv | apps/api/src/drake_api/agents/router_ingest.py:255-260 | No message of any other agent disturbs ours. |
| ReplicationServerSteps.CommitDemandInv | apps/api/src/drake_api/agents/router_ingest.py:212-226 | A demand left over from any refusal may commit at any later time. |
| ReplicationServerSteps.HousekeepInv | apps/api/src/drake_api/agents/maintenance.py:66-245 | Any maintenance transaction may run between any two steps. |
| ReplicationServerSteps.SupersedeInv | apps/api/src/drake_api/agents/router_internal.py:135-148 | Another agent may be enrolled at any time; the invariant stays, and ours is the writer no more. |
| ReplicationServerSteps.SupersededIsRefused | apps/api/src/drake_api/agents/router_ingest.py:255-260 | From then on every inventory message of ours is refused without effect, and never torn. |
| Witness.WatchingIsReachable | apps/cluster-agent/internal/engine/engine.go:227-239 | Live watch sessions, which the main results speak about, are reachable for any collection and after any server history. |
| Witness.AnyMessageMayArrive | apps/api/src/drake_api/agents/router_ingest.py:538-586 | Nothing keeps a copy of any message ever sent, or any message of another agent, from arriving in any state at any clock. |
| Witness.NothingIsPrevented | apps/cluster-agent/internal/engine/engine.go:205-225 | Nor any demand from committing, any agent from being enrolled, expiry from running, the process from dying, giving up or starting again, or an answer from getting through. |
| Witness.DemandsAreTheServers | apps/api/src/drake_api/agents/router_ingest.py:212-226 | The demand a refusal leaves in the system is exactly the one whose transaction the server commits for it. |
| SnapshotRoundTrip.PlanIsApplied | apps/api/src/drake_api/agents/router_ingest.py:648-740 | What the engine streams for a snapshot, delivered in order, is applied exactly when it is in time, no uid was listed twice and there are at most 500000 resources; the projection is then the list, and otherwise unchanged. |
| SnapshotRoundTrip.PagesReceived | apps/api/src/drake_api/agents/router_ingest.py:555-621 | All pages are held exactly when they stay within the bound; otherwise the server stops before the first that crosses it, and what follows is a gap. |
| SnapshotRoundTrip.PlanIsRecorded | apps/cluster-agent/internal/engine/engine.go:257-314 | Every message of the engine's plan is one that the replication model lets a session send, with consecutive sequence numbers and request ids. |
| SnapshotRoundTrip.PlanParts | apps/cluster-agent/internal/engine/engine.go:257-308 | The plan is a begin, the numbered pages and a complete that announces their number and sum. |
| SnapshotRoundTrip.PageReceived | apps/api/src/drake_api/agents/router_ingest.py:555-621 | After the first n-1 pages the n-th page of the plan is accepted and stored exactly when the snapshot stays within its bound; refused, it changes nothing. |
| SnapshotRoundTrip.StageCount | apps/api/src/drake_api/agents/router_ingest.py:587-613 | As many rows are staged as resources were shipped exactly when no uid was shipped twice. |
| SnapshotRoundTrip.ReceivedIsJudged | apps/api/src/drake_api/agents/router_ingest.py:670-722 | For a snapshot received in full the complete passes if and only if it is in time and duplicate-free; otherwise it is torn. |
| ServerTheorems.AppliedIsExact | apps/api/src/drake_api/agents/router_ingest.py:692-740 | An applied complete implies that the pages are exactly 1..n, no uid repeats, the active projection is their union, and the generation applied is newer than any before. |
| ServerTheorems.OnlyAppliedMoves | docs/adr/ADR-0017-snapshot-watch-ordering-and-atomic-projection.md:15-31 | Only an applied complete or an applied batch moves the projection or the log: refusals, begins, pages, heartbeats, demands, enrollment and maintenance do not. |
| ServerTheorems.AtMostOneOpen | apps/api/src/drake_api/agents/router_ingest.py:451-473 | At most one snapshot of a cluster is pending. |
| ServerTheorems.GenerationRefusalsUnreachable | apps/api/src/drake_api/agents/router_ingest.py:672-687 | The check for an older generation never fires, as a pending row is newer than the applied one: a torn answer is due to expiry or to discontinuity. With a cap of at least one the pending rows never exceed it. |
| ServerTheorems.RunMonotone | apps/api/src/drake_api/agents/router_ingest.py:413-473 | Along every run sequences, generations, ids, the log and the set of known uids only grow. |
| ServerTheorems.LogExplainsTable | apps/api/src/drake_api/agents/router_ingest.py:888-913 | In every reachable state the full log of any uid begins with its only added, a restored comes right after a missing and nothing else does, and its last letter says whether the row is active; no uid leaves the table. |
| ServerTheorems.ReplayIsHarmless | apps/api/src/drake_api/agents/router_ingest.py:404-429 | The transaction of any message that was accepted or applied, delivered again in any later state, changes nothing; if its answer calls for a demand, that one only marks the sender as in need of a reconcile. |
| ServerTheorems.RememberedIsHarmless | apps/api/src/drake_api/agents/router_ingest.py:538-586 | While the row of its snapshot still shows what a message did, repeating it changes nothing. |
| ServerTheorems.EventsNeedTheCompleter | apps/api/src/drake_api/agents/router_ingest.py:938-957 | A batch changes the state only if its sender is the active writer, completed the snapshot applied last, and none is open. |
| ServerTheorems.DemandHoldsUntilComplete | apps/api/src/drake_api/agents/router_ingest.py:212-226 | After a demand that agent's batches change nothing until a complete of its own is applied. |
| ServerTheorems.RefusalIsDurableIff | apps/api/src/drake_api/agents/router_ingest.py:943-954 | A refused request is a lasting demand for a reconcile, once what it calls for has committed, if and only if it was more than not fresh, or the agent's row said so already. |
| ServerTheorems.NotFreshLeavesNoMark | apps/api/src/drake_api/agents/router_ingest.py:943-954 | A batch that comes while its sender's snapshot is open: refused, and nothing remembers it. |
| ServerTheorems.NotFreshIff | apps/api/src/drake_api/agents/router_ingest.py:938-943 | In every reachable state the writer's batch is refused as not fresh if and only if its own row is not fresh: that nothing is applied, or that something is pending, never decides alone. |
| ServerTheorems.NotFreshHoldsUntilComplete | apps/api/src/drake_api/agents/router_ingest.py:938-957 | Although nothing remembers such a refusal, it lasts: no batch of that agent changes anything until a complete of its own is applied. |
| ServerTheorems.AppliedIsBounded | apps/api/alembic/versions/0006_agent_inventory.py:136-139 | In no run is a snapshot of more than 500000 resources applied. |
| ServerTheorems.CompletedByASuccessor | apps/api/src/drake_api/agents/router_ingest.py:654-666 | "Begun by the writer" is not guaranteed: an explicit run in which a second agent completes what the first one began. |
| ServerTheorems.CompletedByItsBeginnerIff | apps/api/src/drake_api/agents/router_ingest.py:519-528 | In every run: the agent that completes a snapshot is the one that began it if and only if no agent was enrolled between the begin, the last accepted for that uid, and the complete. |
| ServerTheorems.BegunBefore | apps/api/src/drake_api/agents/router_ingest.py:404-486 | Every snapshot row in the life of a cluster has such a last accepted begin. |
| ServerTheorems.DemandLeavesPendingDangling | apps/api/src/drake_api/agents/router_ingest.py:218-226 | An explicit run after which the writer row names a pending snapshot although none is pending. |
| ServerTheorems.CapLeavesPendingDangling | apps/api/src/drake_api/agents/maintenance.py:98-120 | The same without a demand: with a cap of 0 the housekeeping discards the open snapshot. |
| ServerTheorems.PendingDanglesIff | apps/api/src/drake_api/agents/router_ingest.py:218-226 | Of everything that can happen to the open snapshot, two things alone leave the writer row pointing at it discarded: a demand that names it, and the cap. |
| ServerTheorems.RunCoherent | apps/api/src/drake_api/agents/router_ingest.py:764-848 | In every reachable state a missing row is unknown with a reason, and an active row carries the verdict of its own kind and payload at its last write. |
| Answers.RedeliveredIsAnswered | apps/api/src/drake_api/agents/router_ingest.py:538-586 | Over whole runs from an empty cluster: a message that took effect, delivered again in any later state, is answered exactly so. While its sender is the writer: a begin is a duplicate, or stale once its row is pruned; a page or complete a duplicate if and only if the snapshot row stands and is not discarded; a batch a duplicate if and only if its sender's row is fresh. Hence it is acknowledged exactly then, and a begin always. |
| Answers.AnsweredAtOnce | apps/cluster-agent/internal/transport/transport.go:80-114 | A message of any kind that took effect and whose answer was lost, delivered again before anything else happens, is a duplicate and changes nothing. |
| Answers.BeginAnswers | apps/api/src/drake_api/agents/router_ingest.py:404-430 | Each answer to a begin has its exact condition; a number above the last one is enough, holes included. |
| Answers.PageAnswers | apps/api/src/drake_api/agents/router_ingest.py:519-613 | Each answer to a page has its exact condition, over the writer, the snapshot row, the sender's number and the stored page of that number; torn names the open snapshot. |
| Answers.CompleteAnswers | apps/api/src/drake_api/agents/router_ingest.py:654-722 | So has each answer to a complete: applied exactly for the writer's next message about an open snapshot in time whose pages are numbered 1 to n and add up. |
| Answers.EventsAnswers | apps/api/src/drake_api/agents/router_ingest.py:938-957 | And each answer to a batch. |
| Answers.BeginWrites | apps/api/src/drake_api/agents/router_ingest.py:430-486 | An accepted begin discards the row that was open and no other, and opens one with a new id and the next generation; everything else stays, but for the sender's row. |
| Answers.PageWrites | apps/api/src/drake_api/agents/router_ingest.py:587-621 | An accepted page adds itself to its row, counts included, and moves the number of its sender; nothing else changes. |
| Answers.RestoredPageWrites | apps/api/src/drake_api/agents/router_ingest.py:559-586 | A duplicate page writes nothing, unless it repeats a stored page under the next number, which then counts as used. |
| Answers.CompleteWrites | apps/api/src/drake_api/agents/router_ingest.py:724-740 | An applied complete closes its row and drops what it staged, becomes the applied snapshot, leaves nothing pending and makes its sender fresh. |
| Answers.BatchWrites | apps/api/src/drake_api/agents/router_ingest.py:957-1052 | An applied batch changes the projection, its log and the number of its sender, and nothing else. |
| Answers.StagesFirst | apps/api/src/drake_api/agents/router_ingest.py:587-605 | Of several resources of a page with one uid the first is staged, unless one was staged before. |
| Answers.RefusalWrites | apps/api/src/drake_api/agents/router_ingest.py:212-226 | Once the demand of a refusal has committed: a torn snapshot is discarded, it alone, and its sender marked; a gap or a stale snapshot only marks the sender; any other answer writes nothing more. |
| Answers.RequestIsARun | apps/api/src/drake_api/agents/router_ingest.py:490-512 | A request is a run of the server: its transaction and then, if its answer calls for it, that demand. |
| Effects.SnapshotWrites | apps/api/src/drake_api/agents/router_ingest.py:761-850 | Column by column: a listed object is written whole, with its own observation time, the verdict and time of now and this snapshot's id; any other active row is marked missing, unknown with that reason, and keeps its other columns. |
| Effects.SnapshotLogs | apps/api/src/drake_api/agents/router_ingest.py:774-860 | Per uid the snapshot logs one word: added, restored or missing, and nothing for an object that was there and still is; all entries are of now and carry the names of the row. |
| Effects.EventWrites | apps/api/src/drake_api/agents/router_ingest.py:959-1051 | One event, column by column: what a deletion, an addition and an update each write to the row and to the log, and that no other row changes. |
| Effects.LoggedBy | apps/api/src/drake_api/agents/router_ingest.py:888-913 | In every run each entry of the log was written by exactly one delivery and carries its time. |
| Retention.StepKeeps | apps/api/src/drake_api/agents/router_ingest.py:888-913 | One step: what the log gained is retained and nothing is lost, unless the step is one of retention, which takes the entries it names. |
| Retention.RetainedIff | apps/api/src/drake_api/agents/maintenance.py:186-245 | From an empty cluster on, an entry of the log is no longer retained if and only if a retention step has named it since it was logged. |
| ServerInvariants.RunInv | apps/api/alembic/versions/0007_inventory_generations.py:7-20 | Every reachable state has unique snapshot ids, one open snapshot at most, consistent generations, exact page accounting and a log that explains the table. |
| ServerInvariants.PerformInv | apps/api/src/drake_api/agents/router_ingest.py:229-252 | Every transaction, demand, enrollment and maintenance step keeps that invariant. |
| ServerInvariants.BeginInv | apps/api/src/drake_api/agents/router_ingest.py:430-485 | A begin supersedes the pending snapshot and keeps it. |
| ServerInvariants.PageInv | apps/api/src/drake_api/agents/router_ingest.py:555-621 | A page keeps the accounting of pages, staged rows and counters. |
| ServerInvariants.CommitInv | apps/api/src/drake_api/agents/router_ingest.py:724-739 | Applying a snapshot keeps it. |
| ServerInvariants.EventsInv | apps/api/src/drake_api/agents/router_ingest.py:959-1052 | Applying a batch keeps it. |
| ServerInvariants.DemandInv | apps/api/src/drake_api/agents/router_ingest.py:212-226 | A demand keeps it although it discards unconditionally and leaves the pending id in place. |
| ServerInvariants.DrainInv | apps/api/src/drake_api/agents/maintenance.py:123-152 | Draining keeps it and leaves the staging of open snapshots untouched. |
| ServerInvariants.PruneInv | apps/api/src/drake_api/agents/maintenance.py:155-183 | Pruning keeps it: the applied snapshot keeps its row. |
| ServerInvariants.NewClusterInv | apps/api/alembic/versions/0007_inventory_generations.py:33-75 | A new cluster satisfies it. |
| Accounting.ContinuousIsExact | apps/api/src/drake_api/agents/router_ingest.py:692-722 | The four comparisons of the continuity check imply that the staged rows are exactly the duplicate-free list of the pages read in order. |
| Accounting.PageAccounted | apps/api/src/drake_api/agents/router_ingest.py:587-620 | Adding a page keeps "no more rows than resources, and fewer when a uid repeats". |
| Recovery.RecoveryTime | apps/cluster-agent/internal/engine/engine.go:208-222 | In every behaviour of the replication system in which, from a moment of rest with a number d behind the server's, the process stays up and stays the writer, of its own requests only the outstanding one is delivered, and a cycle is given up only when refused: a begin that arrives is accepted if and only if it is that of cycle (d+1)/2+1 (rounded down), counting from 1. |
| Recovery.StaleCyclesUseTwoNumbers | apps/cluster-agent/internal/engine/engine.go:132-196 | Until then every finished cycle has used exactly two numbers, the server's number has not moved, and no more cycles than that are started. |
| Convergence.NothingWedges | apps/cluster-agent/internal/engine/engine.go:198-240 | From every reachable live state, whatever lag, restart or dangling pending id, while the cluster holds at most 500000 objects there is a continuation to a drained watch session of every collection, whose projection is the cluster. |
| Convergence.RecoveryIsPossible | apps/cluster-agent/internal/engine/engine.go:198-225 | However far behind, an agent that lists everything and keeps trying gets a begin accepted: every calm stretch extends to one that ends so. |
| Convergence.ListAll | apps/cluster-agent/internal/engine/engine.go:288-301 | Listing every collection at the head of its log yields every object of the cluster once. |
| Recovery.StaleCycle | apps/api/src/drake_api/agents/router_ingest.py:424-429 | The server's half of a stale cycle: the begin is stale, what follows finds no snapshot, and the server's sequence and every snapshot row stay. |
| Projection.EventRefinesMap | apps/api/src/drake_api/agents/router_ingest.py:959-1042 | One event on the table is put or remove on the map of active entities, exactly when the stored identity columns already agree. |
| Projection.EventsRefineMap | apps/api/src/drake_api/agents/router_ingest.py:959-1051 | Any event list on the table is the same list of puts and removes on the map. |
| Projection.SnapshotReplacesMap | apps/api/src/drake_api/agents/router_ingest.py:761-850 | Applying a staged set replaces the whole map by it, and the table does not depend on the order in which rows are visited. |
| Projection.UpsertAllIsOverlay | apps/api/src/drake_api/agents/router_ingest.py:762-833 | The upserts, in any order, are one overlay of the staged rows. |
| Projection.ExplainedLogIsRuns | apps/api/src/drake_api/agents/router_ingest.py:774-860 | A log that can be explained is, per uid, a run of the four-letter automaton. |
| Projection.EventExplained | apps/api/src/drake_api/agents/router_ingest.py:961-1051 | Every event logs what it did to the row's lifecycle. |
| Projection.SnapshotExplained | apps/api/src/drake_api/agents/router_ingest.py:774-860 | So does a snapshot: folding the log reproduces exactly the lifecycles of the table. |
| Database.Tables.constructor | apps/api/alembic/versions/0007_inventory_generations.py:33-75 | Empty tables. |
| Ingest.SnapshotBegin | apps/api/src/drake_api/agents/router_ingest.py:388-486 | The in-place transaction has exactly the effect and the answer of the begin specification. |
| Ingest.StagePage | apps/api/src/drake_api/agents/router_ingest.py:587-613 | The loop of conflict-ignoring inserts keeps the first copy of each uid. |
| Ingest.SnapshotPage | apps/api/src/drake_api/agents/router_ingest.py:513-621 | The in-place transaction, its early returns and its rollbacks are the page specification. |
| Ingest.UpsertStaged | apps/api/src/drake_api/agents/router_ingest.py:761-833 | The upsert loop, visiting the staged rows in any order, is the specified overlay and logs added and restored rows only. |
| Ingest.LogMissing | apps/api/src/drake_api/agents/router_ingest.py:851-860 | One missing entry per flipped row, in whatever order they are returned. |
| Ingest.ApplyStaged | apps/api/src/drake_api/agents/router_ingest.py:743-860 | Upserts, then the flip of the rows left out, are the specified application. |
| Ingest.Settle | apps/api/src/drake_api/agents/router_ingest.py:724-739 | The snapshot row, the agent row and the writer row change together. |
| Ingest.SnapshotComplete | apps/api/src/drake_api/agents/router_ingest.py:648-740 | The in-place transaction is the complete specification for some visiting order. |
| Ingest.WatchEvents | apps/api/src/drake_api/agents/router_ingest.py:934-1052 | The loop over the events, with its three branches, is the batch specification. |
| Ingest.DemandReconcile | apps/api/src/drake_api/agents/router_ingest.py:212-226 | The demand is its own transaction. |
| Ingest.Endpoint | apps/api/src/drake_api/agents/router_ingest.py:489-510 | Transaction and, in a second transaction, the demand that its refusal calls for; the invariant holds afterwards. |
| Maintenance.RunInventoryMaintenance | apps/api/src/drake_api/agents/maintenance.py:29-54 | One pass from any state, over the columns: an open row that is not older than the time to live, with a cap of at least one, is left as it is; any other is discarded if it was open, loses its staged rows and is pruned if and only if it is among the oldest beyond the history limit and not the applied one; the pending id is cleared exactly if it named an expired row; of the log the young entries up to the limit are retained, the newest of them. The pass is a run of the server's own events, leaves nothing to do at the same clock, and changes nothing where there was nothing to do. |
| Maintenance.DiscardExpiredPending | apps/api/src/drake_api/agents/maintenance.py:66-95 | Discards exactly the expired open snapshots and clears the pending id if it named one. |
| Maintenance.ExpiryDiscards | apps/api/src/drake_api/agents/maintenance.py:66-95 | The expired rows are the open ones that started before now less the time to live; they alone are discarded, and the pending id is cleared exactly if it named one of them. |
| Maintenance.CapPendingSnapshots | apps/api/src/drake_api/agents/maintenance.py:98-120 | Discards what OFFSET leaves of the open snapshots, newest first; with a cap of at least one that is nothing. |
| Maintenance.DrainOneBatch | apps/api/src/drake_api/agents/maintenance.py:129-150 | One turn removes a batch of dead rows, and comes back smaller than the batch size only when none is left; with a batch size of 0 it changes nothing and never does. |
| Maintenance.DrainDeadStaging | apps/api/src/drake_api/agents/maintenance.py:123-152 | For a batch of at least one row the loop ends with exactly the staging of closed snapshots removed, and counts it. |
| Maintenance.DrainEmpties | apps/api/src/drake_api/agents/maintenance.py:123-152 | Dead staging is that of rows no longer open: draining it empties theirs and leaves the open row alone. |
| Maintenance.PruneSnapshotHistory | apps/api/src/drake_api/agents/maintenance.py:155-183 | Removes exactly what OFFSET leaves of the closed, unapplied snapshots; none removed is newer than one kept. |
| Maintenance.HistoryOfPass | apps/api/src/drake_api/agents/maintenance.py:155-183 | Of the rows that are closed, or that the pass closes, as many as the history limit allows remain, none older than one removed, and the applied one always. |
| Maintenance.ForgetUpTo | apps/api/src/drake_api/agents/maintenance.py:197-245 | The same of one turn over the change log. |
| Maintenance.ForgetAged | apps/api/src/drake_api/agents/maintenance.py:190-218 | The first loop removes exactly the entries that are too old. |
| Maintenance.ForgetExcess | apps/api/src/drake_api/agents/maintenance.py:219-245 | The second loop, although each turn sorts anew and breaks ties anew, removes what a single OFFSET would: the newest entries stay. |
| Maintenance.BoundChangeEvents | apps/api/src/drake_api/agents/maintenance.py:186-245 | Age first, then the row bound. |
| Maintenance.LogOfPass | apps/api/src/drake_api/agents/maintenance.py:186-245 | Of the entries that are not too old exactly as many as the row limit allows remain, and none is older than one dropped. |
| Maintenance.Offset | apps/api/src/drake_api/agents/maintenance.py:108-116 | ORDER BY ... DESC OFFSET: the right number of rows, none newer than a row kept. |
| Maintenance.SparedToTheEnd | apps/api/src/drake_api/agents/maintenance.py:219-245 | Repeated partial removals add up to one OFFSET. |
| Transport.Client.Post | apps/cluster-agent/internal/transport/transport.go:80-114 | At most five attempts, all with the same body; only no answer and a status of 500 or more are retried, any other answer ends them and is the result, 409 with a reconcile demand told apart; exhaustion means five attempts. |
| Engine.SyncEngine.Post | apps/cluster-agent/internal/engine/engine.go:173-196 | A message counts as acknowledged exactly when the last answer was below 400, and only then may its number be stored. |
| Engine.SyncEngine.NextSequence | apps/cluster-agent/internal/engine/engine.go:132-140 | Numbers are handed out one by one. |
| Engine.SyncEngine.FlushPage | apps/cluster-agent/internal/engine/engine.go:270-285 | Posts the pending resources as the next numbered page, or nothing when there are none. |
| Engine.SyncEngine.ListCollection | apps/cluster-agent/internal/engine/engine.go:316-344 | Chunks of any size go in; full pages come out, with nothing lost, repeated or reordered. |
| Engine.SyncEngine.StreamSnapshot | apps/cluster-agent/internal/engine/engine.go:257-314 | A successful snapshot posted exactly the plan for the listed resources; wherever it fails it posted a beginning of such a plan, and used just the numbers it sent. |
| Engine.SyncEngine.Enqueue | apps/cluster-agent/internal/engine/engine.go:423-433 | The queue stays within its capacity, and a dropped event always raises the alarm. |
| Engine.SyncEngine.FlushBatch | apps/cluster-agent/internal/engine/engine.go:455-475 | The batch is emptied before it is posted under the next number. |
| Engine.SyncEngine.FlushLoop | apps/cluster-agent/internal/engine/engine.go:476-492 | What was shipped and what is still batched is everything taken, in order and once each, in gapless messages of 1 to 500 events. |
| EngineSteps.BeginStep | apps/cluster-agent/internal/engine/engine.go:228-263 | Opening a cycle is the StartCycle step of the replication model, and its answer or failure the step after it. |
| EngineSteps.PageStep | apps/cluster-agent/internal/engine/engine.go:270-285 | Posting a page is SendPage, also in the middle of a collection, where the model has listed what the engine has still to list. |
| EngineSteps.CompleteStep | apps/cluster-agent/internal/engine/engine.go:304-310 | Posting the complete is SendComplete. |
| EngineSteps.PushStep | apps/cluster-agent/internal/engine/engine.go:419-434 | Queueing a change is WatchPush; dropping it for want of room is WatchStop. |
| EngineSteps.FlushStep | apps/cluster-agent/internal/engine/engine.go:476-492 | One turn of the flush loop is a Take, a Flush, both, or nothing, and a post that fails is Fail. |
| EngineRuns.SnapshotRun | apps/cluster-agent/internal/engine/engine.go:257-314 | A whole snapshot is a path of the model's agent, for any chunks and any answers: it lists each collection at its version, sends message by message what the engine posts, and ends where the engine ends, watching or given up. |
| EngineRuns.ListStep | apps/cluster-agent/internal/engine/engine.go:288-301 | One collection is one ListCollection and a SendPage for every page the engine filled. |
| EngineRuns.FinishStep | apps/cluster-agent/internal/engine/engine.go:302-314 | The last page and the complete are SendPage and SendComplete. |
| Renewal.Lives | apps/cluster-agent/internal/engine/renewal.go:145-194 | Over any number of lives, each cut short at any instant: the trusted key is in the current bundle or in the one the marker names, both pointers name complete bundles, and prepares are signed with the current key and, unless the marker could not be read, go out only without one. The one way out: the last instant dropped the marker of a promoted key because its bundle could not be read. |
| Renewal.Life | apps/cluster-agent/cmd/agent/main.go:112-127 | Start-up: one attempt to finish an interrupted renewal, then the loop. |
| Renewal.RenewalLoop | apps/cluster-agent/internal/engine/renewal.go:152-194 | Keeps all of this at every instant or ends at the one that loses it; the identity in memory is the one on disk and, whenever nothing is pending, the trusted one. |
| Renewal.RenewOnce | apps/cluster-agent/internal/engine/renewal.go:214-280 | A renewal that succeeds ends with the new identity current, trusted and unmarked; one that fails leaves the old one current. |
| Renewal.SettlePending | apps/cluster-agent/internal/engine/renewal.go:112-143 | Unless cancelled, blind or lost it ends with no marker and a trusted identity. |
| Renewal.TryActivatePending | apps/cluster-agent/internal/engine/renewal.go:73-102 | One attempt, in which reading the marker or its bundle may fail. The marker stays exactly when the outcome is ambiguous or the marker was not read, the current identity changes exactly when it was promoted, and an unreadable bundle costs the marker: safe if and only if the server still trusts the current key. |
| Renewal.ActivateMarked | apps/cluster-agent/internal/engine/renewal.go:87-101 | Activation, promotion and clearing, shared by the attempt and the renewal. |
| Renewal.UnreadBundleLocksOut | apps/cluster-agent/internal/engine/renewal.go:73-86 | The failing instant, spelt out: promoted, the answer lost, the new bundle unreadable. |
| Renewal.LostStaysLost | apps/cluster-agent/internal/engine/renewal.go:214-240 | After such a loss every prepare is refused. |
| IdentityStore.DroppingIsSafeIff | apps/cluster-agent/internal/engine/renewal.go:81-86 | Dropping the marker locks nobody out if and only if the current key is still the trusted one. |
| IdentityStore.Host.DropPending | apps/cluster-agent/internal/engine/renewal.go:81-86 | The drop as an operation on the disk: every invariant of the store survives it if and only if the current key is trusted. |
| IdentityStore.PruningNamedBundlesIsSafeIff | apps/cluster-agent/internal/identity/store.go:129-135 | Were a named bundle pruned, because a pointer could not be read, nobody is locked out if and only if the bundle with the trusted key stays. |
| IdentityStore.EnrolledIsSound | apps/cluster-agent/internal/identity/store.go:66-100 | Where a history may start: an enrolled identity, in flat files or in the current bundle, under the key the server trusts. |
| Renewal.PostPrepare | apps/cluster-agent/internal/engine/renewal.go:227-240 | Up to five copies of a prepare, any of which may take effect unseen, never move trust. |
| Renewal.PostActivate | apps/cluster-agent/internal/engine/renewal.go:282-300 | A yes means the marked key is trusted now; a no means the current one still is. |
| Renewal.ActivateKeeps | apps/api/src/drake_api/agents/router_internal.py:274-346 | Each activation keeps "nobody is locked out", whatever the answer. |
| Renewal.PrepareKeeps | apps/api/src/drake_api/agents/router_internal.py:173-258 | So does each prepare signed with the current key, marker or no marker; and it is granted only while the server trusts that key. |
| KeyServer.OnlyActivationMovesTrust | apps/api/src/drake_api/agents/router_internal.py:311-331 | Preparing never moves trust; an activation does so only for the pending key, and a refusal changes nothing. |
| KeyServer.PrepareAnswers | apps/api/src/drake_api/agents/router_internal.py:187-256 | A prepare is granted exactly to a trusted, unexpired signer, unless a certificate for another key is still held under that request id; what is held is returned as it is, and anything else replaces it for fifteen minutes. |
| KeyServer.RepeatedPrepare | apps/api/src/drake_api/agents/router_internal.py:173-256 | A prepare repeated within fifteen minutes gets the certificate first issued for the same key, and a refusal for any other key; neither writes anything. |
| KeyServer.ActivateAnswers | apps/api/src/drake_api/agents/router_internal.py:278-346 | An activation is granted exactly to the key of a live renewal or to the trusted key of one already promoted; the first grant installs key and expiry, every later one writes nothing. |
| Renewal.LateCopiesLockOut | apps/api/src/drake_api/agents/router_internal.py:227-331 | Why no copy may take effect after its sender gave up: when the marker is gone, a late prepare and a late activation lock everybody out if and only if their key is not the one trusted before. |
| IdentityStore.Host.SaveBundle | apps/cluster-agent/internal/identity/store.go:41-50 | Four files under a fresh id: at no instant does a pointer or another bundle change, and on success the bundle loads as exactly this identity. |
| IdentityStore.Host.Save | apps/cluster-agent/internal/identity/identity.go:83-113 | Key, certificate, agent id and CA chain in this order, stopping at the first failure. |
| IdentityStore.Host.Promote | apps/cluster-agent/internal/identity/store.go:52-62 | At every instant the current identity is the whole old one or the whole new one; an unreadable bundle is refused. |
| IdentityStore.Host.SetPending | apps/cluster-agent/internal/identity/store.go:79-84 | The marker names the bundle and the renewal, or nothing has changed. |
| IdentityStore.Host.ClearPending | apps/cluster-agent/internal/identity/store.go:100-103 | Removes the marker and nothing else. |
| IdentityStore.Host.StoreSequence | apps/cluster-agent/internal/identity/store.go:115-125 | The number reads back, or the one before is kept. |
| IdentityStore.Host.PruneBundles | apps/cluster-agent/internal/identity/store.go:127-168 | Never a bundle a pointer names. Exactly the oldest ones go, as many as exceed the limit, if and only if the youngest of them precedes the marks of the turns before its own, which holds when no candidate is dated a day or more ahead. |
| IdentityStore.CandidatesOutnumberTurns | apps/cluster-agent/internal/identity/store.go:136-156 | With more than four bundles there are two candidates more than there are turns. |
| IdentityStore.Host.RemoveOldest | apps/cluster-agent/internal/identity/store.go:156-167 | The loop picks as specified, marking what it removed. |
| IdentityStore.Host.RemoveAll | apps/cluster-agent/internal/identity/store.go:164 | Removing a bundle file by file keeps everything said of every instant. |
| StateDirectory.MarkerReadsBack | apps/cluster-agent/internal/identity/store.go:79-98 | The marker reads back as written for exactly the pairs of non-empty ids without white space. |
| StateDirectory.SequenceReadsBack | apps/cluster-agent/internal/identity/store.go:105-125 | The sequence file reads back as written for exactly the values in [0, 2^63); anything else reads as 0. |
| StateDirectory.SequenceIsRead | apps/cluster-agent/internal/identity/store.go:105-117 | A number other than 0 is read exactly from a file that holds it, trimmed, between 1 and 2^63 - 1. |
| StateDirectory.WholeOrNothing | apps/cluster-agent/internal/identity/store.go:64-67 | A bundle loads as the one identity it was saved for, or not at all: never the key of one with the certificate of another. |
| Text.TwoFields | apps/cluster-agent/internal/identity/store.go:93-97 | Splitting at white space undoes joining with a blank exactly for two words. |
| Text.IntRoundTrip | apps/cluster-agent/internal/identity/store.go:111-123 | Decimal formatting and 64-bit parsing are inverse on the 64-bit range, and parsing refuses the rest. |
| Text.ParsesIntegers | apps/cluster-agent/internal/identity/store.go:111 | A text is read as a 64-bit integer exactly if it is a numeral, with or without a sign, in that range. |
| Text.Trims | apps/cluster-agent/internal/identity/store.go:74 | Trimming leaves what is between the white space at the two ends. |
| Pruning.PicksAreTheOldest | apps/cluster-agent/internal/identity/store.go:157-167 | While enough candidates are older than every mark, all picks differ and are the oldest. |
| Pruning.PicksDifferIff | apps/cluster-agent/internal/identity/store.go:157-167 | For any candidates and any clock: every turn removes another candidate if and only if the last that has to go is older than every mark set before its turn, a tie going to the one listed first; the candidates removed are then the oldest, oldest first. |
| Pruning.PruningIsExact | apps/cluster-agent/internal/identity/store.go:157-167 | With a clock that does not go back, n > 1 turns remove n candidates if and only if n of them are dated before the first mark, or the last of the oldest n ties with it and is listed before all that carry it. |
| Pruning.PruningWithAFrozenClock | apps/cluster-agent/internal/identity/store.go:157-167 | With one mark throughout: if and only if n are dated before it, or n-1 are and one dated at it is listed before them. |
| Pruning.FutureBundleSurvives | apps/cluster-agent/internal/identity/store.go:157-167 | A concrete failure: of four bundles from beyond tomorrow both turns pick the first. |
| Pruning.PrunedExactly | apps/cluster-agent/internal/identity/store.go:156-167 | The number and the age of the bundles removed, for any listing order, when all are older than the marks. |
| Pruning.PrunedExactlyIff | apps/cluster-agent/internal/identity/store.go:156-167 | The same number and age, for any listing order and any clock, if and only if the last that has to go is older than the marks. |
| Pruning.FindOldest | apps/cluster-agent/internal/identity/store.go:158-163 | The inner loop finds the first oldest candidate. |
| RenewalTiming.DelayBounds | apps/cluster-agent/internal/engine/renewal.go:198-212 | Below 2^62 ns: at least 1 s, before expiry, at most 11/15 of the time left unless raised to 1 s, at least 3/5 of it less 1 ns. |
| RenewalTiming.DoublingFits | apps/cluster-agent/internal/engine/renewal.go:203 | The product fits 64 bits exactly below 2^62 ns and is negative from there on. |
| RenewalTiming.DelayIsExact | apps/cluster-agent/internal/engine/renewal.go:198-212 | Below 2^62 ns the delay is two thirds of the time left plus the draw less a tenth of that, or one second if that is less, for every draw the random source may return. |
| RenewalTiming.DelayTracksRemainingIff | apps/cluster-agent/internal/engine/renewal.go:198-212 | For every 64-bit time left the lower bound holds if and only if the time left is below 2^62 ns. |
| RenewalTiming.LongLivedRenewsAtOnce | apps/cluster-agent/internal/engine/renewal.go:203-211 | From 2^62 ns on, some 146 years, the delay is one second. |
| Waterfall.LayoutIsExact | apps/web/src/lib/traces.ts:119-147 | With distinct ids exactly the spans whose parent chain ends in a root are drawn; what a cycle holds captive is not. |
| Waterfall.CycleIsNotDrawn | apps/web/src/lib/traces.ts:119-147 | Two spans that name each other as parent: nothing is drawn. |
| Waterfall.LayoutIsPreorder | apps/web/src/lib/traces.ts:137-146 | For any spans, repeated ids and cycles included: no id is drawn twice, and every row is a root at depth 0 or follows its parent, one level deeper, with only deeper rows in between. |
| Waterfall.RowsHaveChains | apps/web/src/lib/traces.ts:137-146 | The depth of a row is the length of its parent chain. |
| Waterfall.SameParentInStartOrder | apps/web/src/lib/traces.ts:132-146 | Rows of one parent, and roots, appear in start order, ties in input order. |
| Waterfall.BarIsToScale | apps/web/src/lib/traces.ts:113-143 | With the least start and the greatest end over all spans as the extent, and a millionth of a millisecond as its least value: a bar never leaves the track; lead and duration are to scale; a negative duration has no width; the span that starts first starts at 0, and one that ends last ends at 1. |
| Waterfall.LinkedIff | apps/web/src/lib/traces.ts:119-131 | A span is a child exactly of the span its parent id names, if that is not empty, not its own and in the list; otherwise it is a root. |
| Waterfall.SortOrdered | apps/web/src/lib/traces.ts:132 | Sorting a list in input order by start gives the strict start order. |
| Waterfall.Builder.Group | apps/web/src/lib/traces.ts:119-131 | The loop splits the spans into roots and children lists. |
| Waterfall.Builder.VisitSpan | apps/web/src/lib/traces.ts:137-145 | The recursive visitor ends and appends exactly the specified rows. |
| Waterfall.Builder.VisitList | apps/web/src/lib/traces.ts:144-146 | So does visiting a sorted list. |
| Waterfall.LayoutWaterfall | apps/web/src/lib/traces.ts:111-148 | The whole layout is the specified forest, and every row is to the scale of the whole trace. |
| HealthTheorems.HealthyIffNoReasons | apps/api/src/drake_api/agents/health_rules.py:53-408 | Across all rules a verdict is healthy exactly when its reason list is empty. |
| HealthTheorems.OnlyCronJobsAge | apps/api/src/drake_api/agents/health_rules.py:259-278 | Only cron jobs depend on the clock, and time alone never makes one healthy again. |
| HealthTheorems.ReasonsAreCodes | apps/api/src/drake_api/agents/health_rules.py:42-43 | Every reason is a fixed code, or one of three prefixes before at most 64 letters, digits, underscores and hyphens. |
| HealthTheorems.SortedSetIsCanonical | apps/api/src/drake_api/agents/health_rules.py:87-89 | The reasons do not depend on the order or number of times they were found. |
| HealthTheorems.ProjectionHealth | apps/api/src/drake_api/agents/router_ingest.py:764-848 | In every reachable state under these rules, each row is healthy exactly without a reason, a missing row is unknown, and an active row has the verdict of its last write. |
| HealthLevels.DeploymentLevels | apps/api/src/drake_api/agents/health_rules.py:53-89 | The exact condition of each level of a deployment over its replica counts, generations and first conditions. |
| HealthLevels.DeploymentReasons | apps/api/src/drake_api/agents/health_rules.py:53-89 | The reasons of each, and for a degraded one exactly its findings in order. |
| HealthLevels.SetLevels | apps/api/src/drake_api/agents/health_rules.py:92-126 | The same for replica sets and stateful sets, with revisions and rollouts. |
| HealthLevels.SetReasons | apps/api/src/drake_api/agents/health_rules.py:92-126 | And their reasons. |
| HealthLevels.DaemonSetLevels | apps/api/src/drake_api/agents/health_rules.py:129-153 | The same for daemon sets. |
| HealthLevels.DaemonSetReasons | apps/api/src/drake_api/agents/health_rules.py:129-153 | And their reasons. |
| HealthLevels.PodLevels | apps/api/src/drake_api/agents/health_rules.py:156-197 | A pod that succeeded is healthy whatever else it says; one that failed, crashes, ran out of memory or cannot be scheduled is unhealthy; each level has its exact condition. |
| HealthLevels.PodReasons | apps/api/src/drake_api/agents/health_rules.py:156-178 | Why a pod is unhealthy or not scheduled. |
| HealthLevels.WaitingPodReasons | apps/api/src/drake_api/agents/health_rules.py:179-182 | What a pending pod waits for is shown through the filter, and only if there is something to show. |
| HealthLevels.RunningPodReasons | apps/api/src/drake_api/agents/health_rules.py:183-196 | Exactly the findings of a running pod. |
| HealthLevels.JobLevels | apps/api/src/drake_api/agents/health_rules.py:200-221 | Conditions decide before counters; each level of a job has its exact condition. |
| HealthLevels.JobReasons | apps/api/src/drake_api/agents/health_rules.py:200-221 | And its reason. |
| HealthLevels.CronJobLevels | apps/api/src/drake_api/agents/health_rules.py:259-278 | Never unhealthy; each level of a cron job has its exact condition, and its findings are exactly an overdue schedule and a missing success. |
| HealthLevels.NodeLevels | apps/api/src/drake_api/agents/health_rules.py:281-298 | Judged by the first Ready condition; degraded exactly by the pressures that are on. |
| HealthLevels.NamespaceLevels | apps/api/src/drake_api/agents/health_rules.py:301-312 | Levels and reasons of a namespace by phase. |
| HealthLevels.VolumeClaimLevels | apps/api/src/drake_api/agents/health_rules.py:359-369 | Levels and reasons of a volume claim by phase. |
| HealthLevels.ResourceQuotaLevels | apps/api/src/drake_api/agents/health_rules.py:318-356 | Degraded exactly when some resource compared in one unit uses nine tenths of a positive limit, exhausted when it reaches one; unknown when nothing can be compared. |
| HealthLevels.OtherKindsAreUnknown | apps/api/src/drake_api/agents/health_rules.py:372-395 | Any kind but the eleven is unknown, with the reason that there is no rule. |
| HealthText.ScheduleBound | apps/api/src/drake_api/agents/health_rules.py:224-244 | A schedule has a bound exactly when it is one of the four shapes between blanks, and then that of its shape. |
| HealthText.QuantityRead | apps/api/src/drake_api/agents/health_rules.py:315-327 | A quantity is digits, then letters, then perhaps one line feed, read in base ten. |
| HealthText.CodesListed | apps/api/src/drake_api/agents/health_rules.py:42-43 | The characters that pass into a reason, by their ASCII codes. |
| HealthText.BlanksListed | apps/api/src/drake_api/agents/health_rules.py:234 | The white space that is stripped, character by character. |
| HealthLevels.LessIsBefore | apps/api/src/drake_api/agents/health_rules.py:87-89 | Reasons are ordered by code points, a proper prefix first. |
| Text.ParsesNumerals | apps/api/src/drake_api/agents/health_rules.py:239 | Exactly the digit strings are numbers, read in base ten, leading zeros included. |
| HealthRules.JudgeQuota | apps/api/src/drake_api/agents/health_rules.py:330-356 | The loop gives the specified verdict for every order of the entries. |
| HealthRules.SafeReason | apps/api/src/drake_api/agents/health_rules.py:42-43 | The first 64 characters: letters, digits, underscores and hyphens as they are, an underscore for anything else. |

## Left out

- Authentication and message shape: claims, request signatures, nonces, TLS, X.509, credential-shaped values, size
  limits of single fields. A request signed by a key is a request with that key as a field, and signatures verify
  exactly when the keys match: clock skew beyond the freshness window, which the server answers like a wrong key, is
  not modelled.
- Page content hashes: contents are compared themselves.
- More than one cluster: the model is of one cluster's rows.
- Clocks: each transaction reads one clock; the code reads the database's and the process's.
- Columns that no decision reads: agent versions, heartbeat and reconcile time stamps, the raw payload text.
- Binding resolution inside snapshot application.
- The agent's Normalize: an object is shipped as it is, with a time stamp. A list is served at one consistent version
  and a watch delivers changes in order; page boundaries of lists are arbitrary.
- Replication cuts pages anywhere up to 500 resources; the exact cut is proved of the engine. Its running total grows
  when a page is sent, in the code when it is acknowledged; the two agree whenever another message can be sent.
- Goroutine scheduling, tickers and backoff: any interleaving of watchers, flusher, heartbeats and cancellation.
  Cancellation of a context is a bound on the number of turns, arbitrary but finite.
- Maintenance: isolation of a step's exceptions. Which change events of one time stamp survive is left open.
- Enrollment is one step that makes a never-used agent the writer; its token, certificate and audit record are left
  out, and so is a crash between enrollment and the first saved bundle.
- The identity store: temporary files, permissions and directory creation; removals succeed; the bundle directory
  holds bundles only. The marker and the marked bundle may fail to be read; the current pointer, and both pointers
  while pruning, are read (`IdentityStore.PruningNamedBundlesIsSafeIff` says what is at stake). Certificates parse.
  Requests take effect, if at all, before their sender gives up; `Renewal.LateCopiesLockOut` shows that this is needed.
- Convergence: a continuation exists, which is not to say that every fair run takes it.
- Revoked agents and expired current certificates: keys are held, which is not to say they are still valid.
- Health: reading ISO time stamps and the text of non-text values are parameters; digits are ASCII; a cron step beyond
  the range of a timedelta raises in the code and is a long interval here.
- Waterfall: times are real numbers, so rounding and unparsable time stamps are left out.
- Path builders, duration formatting, table views, settings and the other migrations: declarative or one branch.
