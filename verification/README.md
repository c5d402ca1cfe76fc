# Battle world: a verified model of the control plane, the gateway and the map engine

The repository runs a multi-map game on several nodes. Coordinators elect a leader through a Redis lease, decide which
node owns which map, and move a map to a standby when its owner fails. Gateways route players to owners over a pool of
clients and write to players through one sender per stream. Each map is a world with players, NPCs and treasures.

The model has four parts, each a set of Dafny modules beside the source files they follow.

* **Topology, fences, terms, failover.** `Topologies`, `Stores`, `Electors`, `Authorities`, `Coordinators` and `Nodes`
  hold the data, the Redis scripts and the objects that call them: classes whose methods are proved against
  specification functions (`CasVerdict`, `CasEffect`, `AfterSave`, ...). `Protocol` puts the same functions into one
  transition system in which every script, remote call and local assignment of any number of coordinators, failover
  runs and nodes is a step. A label that is not enabled changes nothing, so every sequence of labels is a run and a
  theorem about `Run(labels)` covers every interleaving. `ProtocolInvariants` proves the invariant, `ProtocolTheorems`
  and `CoordinatorRuns` what follows for whole histories, `ProtocolOutcomes` what single commits, lost leadership and
  promotions come to, `ProtocolLimits` where the promises stop, `ProtocolExample` shows a run with a failover, and
  `FailoverRuns` says which run one call of FailoverMap is. `Drains` does the same for one node's drain, whose worlds
  are those of `Worlds` and whose checkpoints list them (`DrainInvariants`, `DrainTheorems`); `DrainSaves` says when
  its final save stores all it should, `DrainFailover` puts that node into the whole control plane over one store and
  compares the promoted world with the drained one, `DrainExample` shows such a run, and `DrainLimits` what a tick may
  store and a final save may pass by.
* **Stream sender.** `StreamSenders` is the transition system of producers, submitters, writer, Finish and Abort;
  `SenderObject` is the sender as an object whose methods perform runs of those steps, up to where they wait;
  `SenderFresh` says which submissions are kept and that none is forgotten, `SenderOrder` exactly when the state
  frames of all runs keep their order.
* **Client pool.** `ClientPools`: the methods that run under the gateway's lock, each a step of the transition system,
  and all interleavings of reconcilers and Close at lock boundaries; `PoolCoverage` that wanted owners get clients.
* **World.** `WorldData` holds the records; `Worlds` gives each world step as a function of its drawn cells, targets
  and clock reading; `WorldInvariants` and `WorldTreasure` prove what runs of steps keep, from the empty world that
  NewWorld starts with; `WorldHits` keeps the ledger of hit points and `WorldLaws` tells each command and turn by its
  fields; `WorldSpawn` ranks the cells a spawn may fall on; `WorldRounds` describes a background round;
  `WorldCheckpoint` capture and restore, `WorldRestore` and `WorldDowned` what a restore does to treasure and to
  players that are down, `WorldBootstrap` the worlds NewWorld leaves and two runs from there; `WorldEngine` the world
  object, whose commands each do exactly the step the specification names.

`Text` holds strings, sorting and decimal ids.

What the proofs brought out about the code, each with the exact condition:

* A commit that drops a map from the owners leaves the map's fence as it was, so the last listed owner still stores
  checkpoints: admitted is exactly the last listed owner (`AdmittedIffLastListed`, `DroppedOwnerStillSaves`).
  Coordinators never drop one (`AdmittedIffCommittedOwner`).
* The compare-and-swap without a leader term may commit a term above the durable counter; leaders are then refused until
  the counter has caught up (`RepairCanPassTheCounter`, `LeadersWaitForTheCounter`). The committed term stays within the
  counter at every moment exactly when each such commit named a term that was (`AlwaysWithinCounterIff`).
* A BeginDrain whose final save fails stays flagged, and the next call passes without saving
  (`SecondDrainPassesUnsaved`). A final save that finds the cache stale at a map's turn, after a fresh list, passes the map
  by without an error: the drain passes with nothing stored of a map that the node owns, hosts and holds the fence of
  (`StaleTurnPassesUnsaved`). A passed drain has stored every listed map with every guarded write exactly when its save did
  not fail and at every map's turn the cache was fresh and named the node and the map was hosted
  (`PassedDrainStoredAllIff`). The comment above BeginDrain puts the final save after the hand-over; the code saves first
  and then waits, and the model follows the code.
* A tick works on the worlds it copied before its checks, so it can store a world that a promotion has replaced
  (`TickStoresAReplacedWorld`). The copy is the hosted world exactly when the map was neither promoted nor removed since
  (`CopyIsHostedIff`).
* A down player comes back exactly when it has a respawn time (`StaysDownIff`). A join leaves it down for good exactly
  when its profile is down with hit points left, where zero counts as full (`JoinedStaysDownIff`), so leaving while
  knocked down is a way to stay down (`LeavingWhileDownStaysDown`); a restore does so exactly to the players captured
  while down (`RestoredStaysDownIff`).
* Restoring resets the id counters to the number of entries plus one. Later drops then destroy treasure, given room for
  one player to walk between two free cells and for one more treasure, exactly when some treasure carries a number above
  the number of treasures (`RestoredNeverOverwritesIff`). Picking up the first two treasures of a new world leads there
  (`TwoLeftIsReachable`): the first drop after the restore destroys the fourth
  (`RestoreDestroysTheFourth`, `TreasureIsLostOnTheRow`).
* The spawn point is the unchecked last resort of a placement. A respawn keeps occupancy exactly when some cell is
  walkable, a join exactly when one is, or the player is down, or takes the spawn point from itself
  (`RespawnKeepsOccupancyIffRoom`, `JoinKeepsOccupancyIffRoom`, over runs `OccupancyAlongRunsIff`). No cell is walkable
  exactly when the other living units are as many as the floor cells (`CrowdedIffCounted`). Without room the player
  respawns on another unit, if the spawn point is floor (`BlockedRespawnSharesACell`), and a new world of nine floor cells
  can come to that (`RespawnCollisionIsReachable`).
* The captures of a draining node refresh the world, and so does every reader later: a drained world still sees due
  players respawn, and nothing else (`DrainedWorldsAreFrozen`). The world that a failover promotes is the drained one but
  for potions that were used up, times, and players that were down, who stay down (`PromotedWorldIsTheDrainedOne`).
* The comparison that keeps state frames from going back is not transitive across maps: a run can send green 5, cave 1,
  green 3 of one session and epoch (`StatesCanGoBack`). No run whose submissions carry given versions sends a state behind
  an earlier one exactly when the versions contain no such detour (`RunsSendForwardIffNoDetour`).

`dafny verify dfyconfig.toml` checks everything.

## Model

| member | source | states |
|---|---|---|
| Topologies.Validate | src/storage/topology.go:76-119 | accepts exactly the topologies with a version, a time, trimmed ids, and a positive epoch for every map named in either table |
| Topologies.ValidIff | src/storage/topology.go:76-119 | field by field: version, time, trimmed ids, known maps, an owner or none, an epoch for every map |
| Topologies.BuildInitialTopology | src/storage/topology_bootstrap.go:16-77 | ready exactly when maps are known, registrations legal, ids distinct, each map has two candidates and the time is set; then every owner is the least candidate and the result is valid |
| Topologies.CollectCandidates | src/storage/topology_bootstrap.go:28-50 | fails exactly on an illegal or repeated registration, else lists each map's candidates |
| Topologies.ElectOwners | src/storage/topology_bootstrap.go:52-76 | from the candidates, readiness, least owners and epoch 1 |
| Topologies.BuildIsOrderFree | src/storage/topology_bootstrap.go:16-77 | an outcome for some registrations is an outcome for every permutation of them |
| Topologies.BuildIsDetermined | src/storage/topology_bootstrap.go:16-77 | two outcomes for permuted registrations agree on error, readiness and topology |
| Topologies.BuildFailsOn | src/storage/topology_bootstrap.go:16-57 | which registrations are an error, and which only too few |
| Stores.Store.CompareAndSave | src/storage/store.go:465-623 | returns the verdict of the guards in their order, and either saves topology, fences and migrated sessions together or changes nothing |
| Stores.Store.CheckEpochs | src/storage/store.go:548-568 | accepts exactly the successors in which owner and epoch of every map move together and new maps start at 1 |
| Stores.Store.CollectUpdates | src/storage/store.go:571-590 | stops exactly on an undecodable session; else overlaying the updates is the pure migration of the whole table |
| Stores.Store.WriteFences | src/storage/store.go:592-598 | rewrites the fences of the listed owners and no others |
| Stores.Store.LoadTopology | src/storage/store.go:389-407 | absent, unusable, or the stored valid topology |
| Stores.Store.CompareAndSaveForLeader | src/storage/store.go:431-457 | a term of 0, or one the proposal does not carry, never reaches the script; else as CompareAndSave |
| Stores.Store.SaveCheckpointIfOwner | src/storage/store.go:311-352 | stores exactly a checkpoint whose node and epoch match the request and the fence |
| Stores.Store.RequireMapFence | src/storage/store.go:356-372 | holds exactly when the fence names this node and epoch |
| Stores.MigrationMovesExactlyTheAffected | src/storage/store.go:571-602 | a commit keeps every session key and changes exactly the decoded sessions whose map is the migrated one and whose node is the old one: to the new node, one version up; on a third node, or on any refusal, none |
| Stores.SavedIff | src/storage/store.go:465-603 | the script saves exactly a valid next version over the expected one, within the terms, with owners and epochs moving together and sessions that decode |
| Stores.RefusalsTellWhy | src/storage/store.go:465-590 | what each refusal says of the proposal and the stored documents |
| Stores.ReplacedOwnerIsFencedOut | src/storage/store.go:592-598 | after a commit the current owner's checkpoint is still admitted exactly when the map was dropped or kept its owner |
| Electors.RedisElector.BeginCampaign | src/elector/redis.go:107-118 | starts exactly when neither leading nor campaigning |
| Electors.RedisElector.Acquire | src/elector/redis.go:159-171 | wins exactly on a free lease; then lease and counter change as one, and the term is the new counter |
| Electors.RedisElector.BecomeLeader | src/elector/redis.go:131-142 | the acquired term becomes the held one |
| Electors.RedisElector.LoseLeadership | src/elector/redis.go:254-270 | afterwards no leader, term 0, context cancelled, campaign untouched |
| Electors.RedisElector.Renew | src/elector/redis.go:184-218 | keeps the leadership exactly when the script answered that the lease carries its token; else no leader, term 0, context cancelled |
| Electors.RedisElector.ReleaseToken | src/elector/redis.go:243-252 | frees only its own lease |
| Electors.RedisElector.Term | src/elector/redis.go:226-233 | the term, or 0 for a non-leader or a cancelled context |
| Authorities.AuthorityCache.Refresh | src/node/authority.go:55-82 | takes over a valid topology that is not older; otherwise cache and time stay |
| Authorities.AuthorityCache.Require | src/node/authority.go:92-104 | exactly: fresh, and this node owns the map at that epoch |
| Authorities.AuthorityCache.Current | src/node/authority.go:108-123 | an epoch exactly when fresh and owned, and the owned one |
| Authorities.AuthorityCache.OwnedMapIds | src/node/authority.go:127-141 | exactly the owned maps, sorted; nothing at all from a stale cache |
| Authorities.AuthorityCache.RequirePromotionCandidate | src/node/authority.go:147-159 | exactly: fresh, owned by another node, and the target is the next epoch |
| Nodes.NodeService.RequireAuthority | src/node/node.go:183-199 | cache and Redis fence both name this node and epoch |
| Nodes.NodeService.BeginWrite | src/node/node.go:203-214 | admits exactly an authorized write on a node that is not draining, and holds the read lock exactly then |
| Nodes.NodeService.TickMap | src/node/node.go:296-329 | on the copied world: a background round exactly when admitted; after whatever happened meanwhile it publishes and stores a checkpoint that lists the world, players due brought back, exactly when cache and fence still hold, and the lock is released |
| Nodes.NodeService.Promote | src/node/node.go:603-619 | accepts exactly the next epoch of another node's map with a checkpoint of the epoch before, and then hosts a new world object in the state the restore of that checkpoint gives |
| Nodes.NodeService.SaveFinalCheckpoints | src/node/drain.go:80-116 | reads the clock for the list and twice for each turn; succeeds exactly when the list was fresh and no turn was refused; then every owned map had its turn. Stored are exactly the maps whose turn found the cache fresh, the fence held and the map hosted, each with a checkpoint that lists its world; no other checkpoint changes, and the worlds only see due players respawn |
| Nodes.NodeService.SaveInTurn | src/node/drain.go:91-114 | the loop over the list |
| Nodes.NodeService.SaveFinal | src/node/drain.go:91-113 | one turn: passed by, refused or stored, as its two clock readings, the fence and the hosted maps say |
| Nodes.NodeService.FlagAndSave | src/node/drain.go:33-44 | the first call flags and saves, a later one only passes |
| Nodes.NodeService.Drained | src/node/drain.go:49-55 | nothing owned, something owned, or not known |
| Coordinators.SelectStandby | src/coordinator/failover.go:116-145 | the least healthy, undrained node of the map other than the failed one, whatever the order and repetition of registrations; none exactly when there is none |
| Coordinators.FailoverTakesARegisteredNode | src/coordinator/failover.go:116-145 | a committed failover's owner is the least registered, healthy, undrained node of the map other than the failed one; it ends without a standby only when there is none |
| Coordinators.FailoverNeedsItsCheckpoint | src/coordinator/failover.go:77-80 | it goes past the checkpoint exactly with one of the map by the failed node at the loaded epoch |
| Coordinators.EndsTellWhy | src/coordinator/failover.go:53-112 | what each end of a failover says was missing, and a compare-and-swap that nothing was |
| Coordinators.FirstTopologyHasStandbys | src/storage/topology_bootstrap.go:52-76 | the first topology gives every map a registered owner and leaves it another registered candidate |
| Coordinators.ProposalMeetsEpochGuard | src/coordinator/failover.go:91-96 | a failover proposal meets the epoch guard against the topology it was built from exactly when the owner changes |
| Coordinators.RefusedForEpochs | src/storage/store.go:548-568 | on the loaded topology the script never refuses such a proposal for its epochs |
| Coordinators.EpochRefusalMeansChange | src/coordinator/failover.go:65-101 | a failover refused for its epochs met a topology other than the loaded one |
| Coordinators.FailoverKeepsSessionsOnOwners | src/storage/store.go:571-602 | a saved failover keeps every session on the owner of its map |
| Coordinators.Coordinator.FailoverMap | src/coordinator/failover.go:53-112 | with anything happening between its calls, ends as the first missing condition says, else as the script decides on the proposal for the least standby; every end but a commit leaves the store as last seen |
| Coordinators.Coordinator.PromoteAndCommit | src/coordinator/failover.go:77-106 | its second half, from the checkpoint on |
| Coordinators.Coordinator.CommitFailover | src/coordinator/failover.go:91-106 | confirms the term first, and without it leaves the store alone; then saves the proposal or leaves the store as it met it |
| Coordinators.Coordinator.FailoverNode | src/coordinator/failover.go:17-42 | tries each map the loaded topology gives to the failed node once, in order, whatever becomes of the others |
| Coordinators.Coordinator.BootstrapTopologyIfAbsent | src/coordinator/topology.go:14-49 | commits a built version 1 only over an absent topology and under the current term; else ends with the first reason |
| ProtocolInvariants.StepKeepsGood | src/storage/store.go:513-603 | every step of every process keeps ledger, fences, checkpoints, terms and evidence consistent |
| ProtocolInvariants.RunsAreGood | src/storage/store.go:513-603 | so every reachable state of every interleaving is consistent |
| ProtocolInvariants.CommitKeepsFences | src/storage/store.go:592-598 | a commit keeps fences in step with the topology and never takes a fence's epoch back |
| ProtocolTheorems.OneOwnerPerEpoch | src/storage/store.go:548-568 | over the whole history a map and epoch name at most one owner, even when the map was dropped in between |
| ProtocolTheorems.NoTwoAuthorities | src/node/authority.go:92-123 | two nodes with arbitrarily stale caches never both own a map at one epoch |
| ProtocolTheorems.FencesAgreeWithTopology | src/storage/store.go:592-598 | every listed map's fence is its owner and epoch; a stored checkpoint is never ahead of its fence, and at the fence's epoch is its owner's |
| ProtocolTheorems.RunsOnlyAdvance | src/storage/store.go:329-343 | logs are only extended, and fence epochs, checkpoint epochs and the term counter never go back |
| ProtocolTheorems.LeaderTermNeverDecreases | src/storage/store.go:543-547 | the committed leader term never decreases, neither along the log nor along the run |
| ProtocolTheorems.SupersededOwnerHasNoDurableEffect | src/storage/store.go:329-343 | from the commit on that moves its map past an epoch, no save at that epoch ever changes anything |
| ProtocolTheorems.GuardedWritesAreTheOwners | src/storage/store.go:356-372 | for a listed map the fence passes exactly the committed owner at its epoch |
| ProtocolTheorems.LeadersHoldDifferentTerms | src/elector/redis.go:102-171 | coordinators that both believe they lead hold different terms, each issued to its holder |
| ProtocolTheorems.LeaseBelongsToTheLatestTerm | src/elector/redis.go:159-171 | the counter counts the acquisitions, and a held lease is the latest acquirer's |
| ProtocolTheorems.CommitsCarryTheirAuthorsTerm | src/storage/store.go:518-525 | every coordinator commit carries a term issued to its author, the newest at that moment |
| ProtocolTheorems.StaleTermsNeverCommit | src/storage/store.go:518-525 | once a term is issued no coordinator commits under a smaller one |
| ProtocolTheorems.FailoverFollowsPromotion | src/coordinator/failover.go:87-101 | every failover commit moved one map by one epoch to a node that had accepted a promotion to that epoch from the old owner's checkpoint |
| ProtocolTheorems.ProposalsNeverBreakEpochs | src/coordinator/failover.go:91-101 | in every reachable state a failover's compare-and-swap is never refused for its epochs |
| ProtocolTheorems.FailoverStepKeepsSessionsOnOwners | src/storage/store.go:571-602 | in every reachable state the commit step keeps sessions on the owners of their maps |
| ProtocolOutcomes.FailoverCommitIs | src/coordinator/failover.go:91-106 | a failover's commit gives one map to the standby, one epoch and one version up, at its time and term, and changes nothing else of the topology; without a commit the store stays as it is |
| ProtocolOutcomes.FailoverMovesItsSessions | src/storage/store.go:571-602 | it moves exactly the sessions of the map on the failed node |
| ProtocolOutcomes.BootstrapCommitIs | src/coordinator/topology.go:14-49 | a bootstrap's commit is the built topology under the run's term, over no topology |
| ProtocolOutcomes.SessionStaysUntilMigrated | src/storage/store.go:571-602 | over any run a session of a map on a node stays as it is until it is written, deleted, or a commit migrates that map away from that node |
| ProtocolOutcomes.LostLeadershipLasts | src/elector/redis.go:184-270 | after a lost lease or a cancelled context a coordinator holds no term until it is assigned one: it starts and confirms neither failover nor bootstrap |
| ProtocolOutcomes.LeadershipLastsIff | src/elector/redis.go:173-218 | without a new assignment a leader keeps its term exactly as long as no renewal finds another lease and nothing cancels it |
| ProtocolOutcomes.ConfirmNeedsTheTerm | src/coordinator/coordinator.go:271-273 | a run confirms only under the very term it started with, while that leadership lives |
| ProtocolOutcomes.AcquireGives | src/elector/redis.go:119-171 | a campaigner takes a free lease with the next term; with the answer lost it neither leads nor campaigns, and the term is spent |
| ProtocolOutcomes.AssignedLeads | src/elector/redis.go:131-142 | the assignment makes the campaigner leader of the acquired term, campaigning no more |
| ProtocolOutcomes.LeaseMovesOnlyBy | src/elector/redis.go:159-171 | a held lease ends by expiry or its holder's release alone; a free one is taken with the next term |
| ProtocolOutcomes.PromotionIsNextEpoch | src/node/authority.go:147-159 | a standby takes a promotion to exactly the epoch after its cache's, which names another owner, from a checkpoint of that epoch; with its answer lost the run ends |
| ProtocolOutcomes.RunsBeginOn | src/coordinator/failover.go:61-76 | a failover run chooses a standby only on a stored topology that gives the map to the failed node; a bootstrap is built for only where none is stored; a run that gives up is gone |
| ProtocolOutcomes.CachesOnlyAdvance | src/node/authority.go:55-82 | over any run a node's cached topology never goes back |
| CoordinatorRuns.FencesComeFromListings | src/storage/store.go:483-511 | in any run a map's fence is its entry in the last commit that listed it |
| CoordinatorRuns.AdmittedIffLastListed | src/storage/store.go:329-343 | a checkpoint is admitted exactly from the last listed owner at its epoch |
| CoordinatorRuns.CoordinatorHistory | src/coordinator/topology.go:14-49 | with only coordinators committing, the first commit is a bootstrap and every later one a failover |
| CoordinatorRuns.EpochsCountOwnerChanges | src/coordinator/failover.go:91-96 | then each epoch minus 1 is the number of owner changes, the version minus 1 is the sum of these, and no map is added or dropped |
| CoordinatorRuns.AdmittedIffCommittedOwner | src/storage/store.go:329-343 | then a checkpoint is admitted exactly from the committed owner |
| CoordinatorRuns.CommittedTermWithinCounter | src/storage/store.go:543-547 | then the committed term never passes the durable counter |
| CoordinatorRuns.FailoverSavedIff | src/storage/store.go:513-603 | then a confirmed failover saves exactly when its term is current, nothing was committed since its load, its ids and time are legal and all sessions decode |
| CoordinatorRuns.SessionsStayOnOwners | src/storage/store.go:571-602 | once a topology is committed and every session is on its map's owner, it stays so over all coordinator runs whose session writes name the owner |
| ProtocolLimits.RepairCanPassTheCounter | src/storage/store.go:425-427 | a commit without a term may carry one above the counter |
| ProtocolLimits.TermsWithinCounterIff | src/storage/store.go:518-547 | in any history all commits carry terms within the counter exactly when those without a leader term do |
| ProtocolLimits.TermAboveCounterIff | src/storage/store.go:518-547 | the committed term is above the counter exactly when the last commit was one without a leader term, carrying such a term |
| ProtocolLimits.AlwaysWithinCounterIff | src/storage/store.go:518-547 | at every moment of a run the committed term is within the counter exactly when each commit without a leader term named one that was |
| ProtocolLimits.LeadersWaitForTheCounter | src/storage/store.go:518-547 | while the committed term is above the counter no leader's commit is saved |
| ProtocolLimits.DroppedOwnerStillSaves | src/storage/store.go:483-511 | a run in which a dropped map's last owner still stores a checkpoint |
| ProtocolExample.AFailoverHappens | src/coordinator/failover.go:53-112 | for every usable checkpoint: a run of election, bootstrap, save and failover that promotes from it and ends with the map on its standby at epoch 2 |
| FailoverRuns.FailoverMapIsARun | src/coordinator/failover.go:53-112 | whatever everybody else does between its calls, what one call promises of its outcome is what its labels do in the transition system: they commit the proposal exactly when it ends Committed, and else change neither store nor log |
| DrainInvariants.RunsAreGood | src/node/drain.go:29-44 | the drain invariant over every interleaving of writers, hosting, drain and other processes |
| DrainTheorems.NoWriteDuringOrAfterDrain | src/node/drain.go:33-37 | while drainMu is held and ever after the flag, no guarded write is in progress |
| DrainTheorems.DrainedWorldsAreFrozen | src/node/node.go:203-214 | a world of a draining node, hosted or replaced, takes no further step from commands or ticks: it only sees players due respawn, which any reader causes |
| DrainTheorems.FinalSaveIncludesEveryWrite | src/node/drain.go:95-114 | a stored final checkpoint lists its world, which since has only seen respawns, so with every guarded write it ever took; it stays stored until a commit moves the fence to a later epoch |
| DrainTheorems.RespawnsTouchPlayers | src/world/tick.go:208-219 | such respawns change no terrain, NPC, treasure or counter, and no player that was up |
| DrainTheorems.SecondDrainPassesUnsaved | src/node/drain.go:35-44 | a run in which the save fails and the second call passes with nothing saved |
| DrainTheorems.AdmittedWriterHadTheFence | src/node/node.go:183-214 | over any run an admitted writer's map was given to this node at its epoch: the fence names it, or has moved on |
| DrainTheorems.DrainCheckPasses | src/node/node.go:203-214 | the first check of beginWrite passes exactly on a node that is not draining |
| DrainTheorems.CacheCheckPasses | src/node/authority.go:92-104 | the second exactly on a fresh cache that names node and epoch |
| DrainTheorems.FenceCheckPasses | src/storage/store.go:356-372 | the third exactly on a fence that names them |
| DrainTheorems.HeldWorldIsHosted | src/node/node.go:296-304 | a tick holds the world hosted when it copied, a command the one hosted when it looked |
| DrainTheorems.PromotionBeginsOnly | src/node/authority.go:147-159 | a promotion begins only on a node that is not draining, for another owner's map, to the next epoch |
| DrainSaves.SkippedNothingIff | src/node/drain.go:92-107 | a run passes no map by exactly when at each map's turn the cache is fresh and names the node and the map is hosted |
| DrainSaves.PassedDrainStoredAllIff | src/node/drain.go:33-44 | a drain past its save phase has every listed map stored in full, with every guarded write, exactly when the save did not fail and passed no map by |
| DrainSaves.ListedWereOwned | src/node/drain.go:84-90 | the list holds exactly the maps that the cache gave to the node when it was made |
| DrainFailover.RunsAreGood | src/node/drain.go:29-44 | the drain invariant and the control plane's hold together over every interleaving of the node's steps with everybody else's |
| DrainFailover.CheckFindsTheSavedWorld | src/coordinator/failover.go:77-80 | a failover that checks the checkpoint after the final save of that map and epoch finds exactly what was saved, and does find it while the fence is there |
| DrainFailover.FailoverPromotesTheSavedWorld | src/coordinator/failover.go:77-89 | and promotes the standby from exactly that checkpoint, however much happens in between |
| DrainFailover.PromotedWorldIsTheDrainedOne | src/world/checkpoint.go:23-79 | restoring it gives the drained node's world as it stands at any later moment: terrain, NPCs, treasures and the set of players are the same, and each player up at the capture but for used-up potions and times; a player down at the capture is as captured, without a respawn time |
| DrainExample.ADrainedWorldIsPromoted | src/node/drain.go:29-44 | for every world of a map and capture of it: a joint run of election, bootstrap, drain, final save and failover that promotes the standby from that capture |
| DrainLimits.TickStoresAReplacedWorld | src/node/node.go:296-327 | for every old world, promoted checkpoint, step of the tick and capture of it: a run in which the tick stores, at the new epoch, the world that the promotion had replaced |
| DrainLimits.StaleTurnPassesUnsaved | src/node/drain.go:91-95 | a run in which the drain passes without an error and without any checkpoint of a map that the node owns, hosts and holds the fence of |
| DrainLimits.CopyIsHostedIff | src/node/node.go:296-304 | a world copied from the hosted ones is still hosted exactly when its map was neither removed nor promoted since |
| StreamSenders.ControlsStayInOrder | src/cmd/gateway/stream_sender.go:62-80 | under every interleaving sent, in-hand, failed and queued controls together are the accepted ones in order |
| StreamSenders.CleanExitSentEverything | src/cmd/gateway/stream_sender.go:191-249 | a writer that ended without abort has sent all accepted controls, and none is accepted later |
| StreamSenders.BlockedProducerIsNotStranded | src/cmd/gateway/stream_sender.go:67-79 | a producer blocked on the full queue faces a writer in Send or able to move, and Finish has not closed anything |
| StreamSenders.WriterApproachesTheQueue | src/cmd/gateway/stream_sender.go:191-234 | while controls wait, each writer step takes one, ends the loop or comes closer, and no other step undoes that |
| StreamSenders.DrainTerminates | src/cmd/gateway/stream_sender.go:236-249 | each step of the drain shortens it and nobody lengthens it |
| StreamSenders.StepwiseNeverGoesBack | src/cmd/gateway/stream_sender.go:109-117 | accepted submissions never go back in session and epoch, and in the map's version only across another map |
| StreamSenders.AlwaysForwardIffNoDetour | src/cmd/gateway/stream_sender.go:109-142 | for a set of versions, every accepted sequence of them is free of regressions exactly when no two of one map that go back enclose another map of their session and epoch |
| StreamSenders.StateFramesNeverGoBack | src/cmd/gateway/stream_sender.go:109-150 | no two sent state frames go back in session and epoch, nor in the map's version without a detour, however many were merged away |
| SenderOrder.RunsSendForwardIffNoDetour | src/cmd/gateway/stream_sender.go:109-150 | over all runs whose submissions carry given versions, no sent state regresses behind an earlier one exactly when the versions contain no detour |
| SenderOrder.SendingAll | src/cmd/gateway/stream_sender.go:191-234 | every accepted sequence of submissions can go out whole, frame by frame |
| SenderOrder.StatesCanGoBack | src/cmd/gateway/stream_sender.go:128-142 | a run that sends three states, each accepted after the one before, the third behind the first |
| SenderFresh.StoreKeepsIff | src/cmd/gateway/stream_sender.go:109-142 | a submission becomes the pending state exactly when it is the first, of a newer session, of a newer epoch, of another map, or of no older version |
| SenderFresh.SubmitEntersIff | src/cmd/gateway/stream_sender.go:93-99 | only a done or finished stream refuses a submission at the door |
| SenderFresh.PendingIsSignalled | src/cmd/gateway/stream_sender.go:118-123 | until Finish clears it, a pending state has its signal given or about to be given, or the writer takes it |
| SenderFresh.TakeHandsOver | src/cmd/gateway/stream_sender.go:144-150 | a pending state goes into Send once |
| SenderFresh.AdmissionIs | src/cmd/gateway/stream_sender.go:74-79 | the select admits exactly below thirty-two queued controls, and gives up exactly when done |
| SenderFresh.WriterChooses | src/cmd/gateway/stream_sender.go:191-249 | what each of the writer's choices says of queue, signal and shutdown |
| SenderObject.StepsFromARun | src/cmd/gateway/stream_sender.go:191-234 | what a method adds to a run is again a run |
| SenderObject.Sender.EnqueueControl | src/cmd/gateway/stream_sender.go:62-80 | admits at the end of the queue, refuses only when closing or done, or waits for controlMu or, holding it, for room; nil is a success without effect |
| SenderObject.Sender.SendOrGiveUp | src/cmd/gateway/stream_sender.go:74-79 | the select under controlMu, also of a call that waited |
| SenderObject.Sender.SubmitState | src/cmd/gateway/stream_sender.go:84-123 | replaces the pending state exactly when open and the submission is the first, of a newer session, of a newer epoch, of another map, or of no older version, and signals |
| SenderObject.Sender.TakeState | src/cmd/gateway/stream_sender.go:144-150 | hands out the pending state once |
| SenderObject.Sender.Finish | src/cmd/gateway/stream_sender.go:154-169 | waits exactly while a producer holds controlMu; then, once, refuses controls, drops pending state and signal, keeps the queue |
| SenderObject.Sender.Abort | src/cmd/gateway/stream_sender.go:173-177 | ends the stream |
| SenderObject.Sender.Send | src/cmd/gateway/stream_sender.go:251-257 | a sent frame is logged; a failed one aborts and ends the writer |
| SenderObject.Sender.DrainControls | src/cmd/gateway/stream_sender.go:236-249 | terminates, and unless done everything queued was sent in order |
| SenderObject.Sender.Turn | src/cmd/gateway/stream_sender.go:191-234 | one turn of the loop is a run of enabled steps: controls first, then the end of the stream, then the state, or it waits with nothing to do |
| SenderObject.Sender.Wake | src/cmd/gateway/stream_sender.go:213-232 | the blocking select waits exactly when nothing is ready, and else does one of the ready cases |
| ClientPools.GatewayOwnerTargets | src/cluster/routing.go:89-115 | exactly the owners with a usable registration, each with the first such address |
| ClientPools.Cluster.ApplyTopology | src/cluster/topology_cache.go:15-37 | takes over a valid topology exactly when none is loaded or it is newer; as the Apply step |
| ClientPools.Cluster.BeginReconcile | src/cluster/routing.go:27-49 | enters exactly when open and still at that version; then every target is either pooled at its address or missing with it, never both, and the obsolete clients are those of no target or another address; as the Enter step |
| ClientPools.Cluster.DropObsolete | src/cluster/routing.go:34-43 | the kept, the kept addresses and the obsolete clients are exactly those of the old pool |
| ClientPools.Cluster.Install | src/cluster/routing.go:62-75 | adds the client exactly when open, still wanted at that address and the place is free; as the Install step |
| ClientPools.Cluster.BeginClose | src/cluster/cluster.go:129-138 | empties pool, addresses and targets and hands out every client; as the Close step |
| ClientPools.EveryClientIsInOnePlace | src/cluster/routing.go:27-76 | under every interleaving of reconcilers and Close each client is in exactly one of pool, one reconciler's hands, Close's hands, closed; and closed at most once |
| ClientPools.PoolFollowsTargets | src/cluster/routing.go:27-76 | pooled addresses equal the targets, no pooled client is closed, and after Close the pool stays empty |
| ClientPools.NothingLeaks | src/cluster/cluster.go:126-143 | when Close and all reconcilers have ended every client made was closed |
| PoolCoverage.EveryTargetIsServed | src/cluster/routing.go:27-76 | under every interleaving each target is pooled at its address, or in the hands or the list of the reconciler that entered with these targets, or its factory call has failed since |
| PoolCoverage.ReturnedServesAll | src/cluster/routing.go:27-76 | when that reconciler has returned and no call failed, the pool connects to every target |
| PoolCoverage.ReconcilerFinishes | src/cluster/routing.go:51-76 | each step of an entered reconciler lessens its work and nobody adds to it |
| Text.IsTrimmed | src/storage/topology.go:76-119 | the TrimSpace comparison accepts exactly non-empty strings without outer white space |
| Text.DecimalInjective | src/world/tick.go:152-186 | different numbers print differently, so ids from different counters differ |
| Text.LeIff | src/world/tick.go:42 | the order of ids: a prefix, or smaller at the first difference |
| Text.SpacesAre | src/storage/topology.go:76-119 | the characters that trimming removes, by number |
| WorldInvariants.StepKeepsOccupancy | src/world/world.go:477-559 | every step that finds room keeps: no two living units on one cell, all on floor |
| WorldInvariants.StepKeepsOccupancyIff | src/world/world.go:515-524 | a fitting step keeps occupancy exactly when the player it places has room |
| WorldInvariants.OccupancyAlongRunsIff | src/world/world.go:515-524 | a run keeps occupancy all along exactly when it starts with it and every placed player has room |
| WorldInvariants.OccupancyOverRuns | src/world/world.go:477-559 | so do all runs in which each placed player finds a walkable cell |
| WorldInvariants.FewerUnitsThanCellsLeaveRoom | src/world/world.go:526-559 | fewer other living units than floor cells leave a walkable cell, so the unchecked spawn point is not used |
| WorldInvariants.OccupancyByCounting | src/world/world.go:515-559 | occupancy over all runs from that count alone |
| WorldInvariants.RespawnKeepsOccupancyIffRoom | src/world/tick.go:208-219 | a due respawn keeps occupancy exactly when some cell is walkable |
| WorldInvariants.JoinKeepsOccupancyIffRoom | src/world/world.go:98-133 | a join keeps it exactly when the player is named and is down, or some cell is walkable, or it takes the spawn point from itself |
| WorldInvariants.BlockedRespawnSharesACell | src/world/world.go:515-524 | with the spawn point on floor, every due respawn without room ends on the cell of another living unit |
| WorldInvariants.CrowdedIffCounted | src/world/world.go:477-559 | with occupancy no cell is walkable exactly when the other living units are as many as the floor cells |
| WorldInvariants.RespawnKeepsOccupancyIffFewer | src/world/tick.go:208-219 | so a due respawn keeps occupancy exactly when they are fewer |
| WorldInvariants.EmptyWorldHasOccupancy | src/world/world.go:75-88 | runs from NewWorld start with occupancy |
| WorldInvariants.StepRaisesVersion | src/world/world.go:98-348 | the version never falls, and a step that changes anything raises it |
| WorldInvariants.VersionDetectsChange | src/world/world.go:424-428 | two instants of a run with equal versions are equal worlds |
| WorldDowned.StaysDownIff | src/world/tick.go:208-211 | a down player that neither leaves nor joins stays down over all runs exactly when it has no respawn time |
| WorldDowned.JoinedStaysDownIff | src/world/world.go:107-129 | a joined player stays down exactly when its profile is down with hit points left, zero counting as full |
| WorldDowned.LeavingWhileDownStaysDown | src/world/world.go:135-147 | a knocked down player that leaves and joins again with the profile it left with stays down |
| WorldTreasure.NextIdIsFree | src/world/tick.go:186-195 | without a restore the next treasure id is unused, so a drop overwrites nothing |
| WorldTreasure.StepKeepsGround | src/world/tick.go:177-198 | no two treasures share a cell, and all are numbered below the counter |
| WorldTreasure.MoveTransfers | src/world/world.go:203-216 | a pickup moves value from the ground to a purse and changes no total |
| WorldTreasure.StepChangesTotalByDelta | src/world/world.go:310-348 | ground plus purses change by exactly what drops, purchases, rewards, joins and leaves say |
| WorldTreasure.TreasureOverRuns | src/world/tick.go:169-198 | the same for all runs, as a ledger |
| WorldTreasure.EmptyWorldHasGround | src/world/world.go:75-88 | runs from NewWorld start with no treasure and nothing overwritten |
| WorldHits.NpcFallsIff | src/world/world.go:266-281 | over any run an NPC of h hit points is gone exactly when the attacks that hit it add up to h; until then it has h less these |
| WorldHits.NewWorldsAreBehind | src/world/tick.go:146-167 | in runs of a new world no later NPC takes an earlier one's id |
| WorldHits.PlayerFallsIff | src/world/tick.go:200-206 | over any run a player that is not helped is down exactly when the attacks that hit it add up to its hit points |
| WorldHits.BlowLands | src/world/tick.go:54-65 | a blow takes exactly the hitter's attack; with nothing left the player is down for four seconds |
| WorldHits.HealGives | src/world/world.go:218-242 | a heal costs a potion and gives thirty points up to the maximum, of a living player with a potion, else nothing |
| WorldHits.RespawnGives | src/world/tick.go:208-219 | exactly at its time a down player comes back with full hit points and at least three potions |
| WorldLaws.WeakestNpcIsHit | src/world/world.go:257-265 | the living NPC within two cells with the least hit points, then the least id |
| WorldLaws.WeakestPlayerIsHit | src/world/world.go:283-291 | without one, the weakest other living player within two cells |
| WorldLaws.NeighbourIsHit | src/world/tick.go:132-144 | an NPC hits the weakest living player within one cell and walks only without one |
| WorldLaws.KillPays | src/world/world.go:266-281 | a kill counts and leaves two to four treasure where the NPC stood |
| WorldLaws.KnockoutPays | src/world/world.go:296-303 | a knock-out counts for the attacker and moves no treasure |
| WorldLaws.MoveGoes | src/world/world.go:175-216 | a living player goes one cell in its direction exactly onto open floor, and takes the treasure there |
| WorldLaws.NpcWalks | src/world/tick.go:63-83 | an NPC takes the first open neighbour from its drawn direction, and stays where none is |
| WorldLaws.BuyGives | src/world/world.go:310-348 | three treasures for a potion below eight, eight for six points of attack |
| WorldLaws.JoinGives | src/world/world.go:107-129 | a profile comes back with what it left with, zeros standing for starting values |
| WorldLaws.JoinStands | src/world/world.go:98-106 | at its own cell of this map or the spawn point if open, else at another open cell if there is one |
| WorldLaws.LeaveTakes | src/world/world.go:135-147 | a leave removes the player alone |
| WorldLaws.RewardAdds | src/world/tick.go:117-130 | a reward adds treasures and victories |
| WorldLaws.SpawnedNpcIs | src/world/tick.go:146-167 | a new NPC's number, hit points, attack and name |
| WorldLaws.SpawnedTreasureIs | src/world/tick.go:169-198 | one to four treasure on an open cell, merged with what lies there |
| WorldRounds.RoundIsARun | src/world/tick.go:11-86 | a background round is a run of fitting steps |
| WorldRounds.RoundKeepsOccupancy | src/world/tick.go:11-86 | with a floor cell for every player and NPC a round keeps occupancy, and the next one has the cells again |
| WorldRounds.RoundAddsItsTreasure | src/world/tick.go:32-36 | a round changes the treasure total by its spawned treasure and nothing else |
| WorldRounds.OneTurnEach | src/world/tick.go:38-83 | in a round every NPC has one turn, in id order, and a living one acts once in it |
| WorldRounds.RoundRefills | src/world/tick.go:17-31 | a round ends with five NPCs unless no cell was free, and begins by bringing back every player whose time is over |
| WorldCheckpoint.CaptureThenRestore | src/world/checkpoint.go:9-79 | restoring a capture gives back terrain, version, NPCs, treasures and players, except that zero potions become three and times are lost |
| WorldCheckpoint.RestoredPlayerIs | src/world/checkpoint.go:35-52 | field by field, who comes back with what |
| WorldCheckpoint.CaptureIsSorted | src/world/world.go:372-421 | a capture lists each player, NPC and treasure once, in order |
| WorldCheckpoint.CapturedWaitIs | src/world/tick.go:221-230 | the time to wait that a capture lists for a player that is down |
| WorldCheckpoint.RunKeepsKeyed | src/world/world.go:98-348 | no run files a player, NPC or treasure under another name than its own, which a capture relies on |
| WorldCheckpoint.SecondRoundChangesNothing | src/world/checkpoint.go:23-79 | a second capture and restore changes only update times |
| WorldCheckpoint.RestoreKeepsOccupancy | src/world/checkpoint.go:23-79 | a restore keeps occupancy |
| WorldDowned.RestoredStaysDownIff | src/world/checkpoint.go:35-52 | after a restore exactly the players captured while down stay down |
| WorldSpawn.FirstTwelve | src/world/world.go:542-558 | each of the first twelve ranked candidates has fewer than twelve walkable cells before it |
| WorldSpawn.ScoreWeighs | src/world/world.go:561-595 | what a cell gains per step away from NPCs, players, treasure and edge and towards the centre |
| WorldSpawn.BestMeans | src/world/world.go:542-558 | no twelve walkable cells score higher than a drawn one, or as high and lie above or to the left |
| WorldSpawn.FewBeforeIsBest | src/world/world.go:542-558 | and a cell before which at most eleven rank may be drawn |
| WorldSpawn.FewCellsDrawTheBest | src/world/world.go:526-559 | on a map of at most twelve floor cells every fitting run draws only cells that the ranking offers |
| WorldRestore.RestoredGroundIff | src/world/checkpoint.go:76-78 | the restored counter is above every number in use exactly when no treasure's number was above the number of treasures |
| WorldRestore.RestoredNeverOverwritesIff | src/world/checkpoint.go:76-78 | with room for one player to walk between two free cells and fewer than eight treasures, no later run of the restored world overwrites a treasure exactly under that condition |
| WorldRestore.CoveredRestoreKeepsTheLedger | src/world/tick.go:177-198 | under it the treasure ledger holds over every later run |
| WorldRestore.UsedNumberIsOverwritten | src/world/tick.go:186-195 | with a used number ahead of the counter, one player picking up drops reaches it, and the next drop destroys its treasure |
| WorldRestore.DropAfterRestoreOverwritesIff | src/world/checkpoint.go:76-78 | the next drop overwrites exactly when its number is in use, and by how much the total then falls short |
| WorldBootstrap.BootstrapRuns | src/world/tick.go:88-98 | the five NPCs and four treasures of a new world, on any floor cells apart, are a run of fitting steps from the empty world |
| WorldBootstrap.PopulatedHasOccupancy | src/world/tick.go:88-98 | such a world has occupancy |
| WorldBootstrap.TwoLeftIsReachable | src/world/world.go:175-216 | picking up its first two treasures, from free floor beside them, leaves the third and the fourth |
| WorldBootstrap.RestoreDestroysTheFourth | src/world/checkpoint.go:76-78 | every capture of that world, restored, lets the first drop, on any free floor cell, put a new treasure in the place of the fourth |
| WorldBootstrap.TreasureIsLostOnTheRow | src/world/checkpoint.go:76-78 | the same as one run from the empty world, on a row of twelve floor cells, each drawn cell among the twelve best |
| WorldBootstrap.RespawnCollisionIsReachable | src/world/world.go:515-524 | a run from a new world of nine floor cells, with occupancy, to a due respawn that puts two living players on one cell |
| WorldEngine.Engine.WalkableFor | src/world/world.go:477-495 | true exactly on a floor cell without another living unit |
| WorldEngine.Engine.FindTreasure | src/world/world.go:468-475 | a treasure of the cell, none only if there is none |
| WorldEngine.Engine.SpawnScore | src/world/world.go:561-595 | the score of the cell: distances to the nearest living NPC, living player and treasure, to edge, centre and spawn point |
| WorldEngine.Engine.BestSpawnCell | src/world/world.go:526-559 | a walkable cell before which fewer than twelve walkable ones rank, none only if there is none |
| WorldEngine.Engine.FindSafePosition | src/world/world.go:515-524 | the preferred cell if walkable, else one of the twelve best walkable ones, else the spawn point |
| WorldEngine.Engine.WeakestNPC | src/world/world.go:257-265 | a living NPC in range of least HP, ties to the least id; none only if none is in range |
| WorldEngine.Engine.WeakestPlayer | src/world/tick.go:132-144 | the same for players, without the excepted one |
| WorldEngine.Engine.RefreshPlayer | src/world/tick.go:208-219 | respawns a due player at a safe position, else nothing |
| WorldEngine.Engine.AddOrRestorePlayer | src/world/world.go:98-133 | does exactly the join step, at a position that fits |
| WorldEngine.Engine.RemovePlayer | src/world/world.go:135-147 | does exactly the leave step |
| WorldEngine.Engine.MovePlayer | src/world/world.go:175-216 | a refresh, then exactly the move step with the treasure found there |
| WorldEngine.Engine.HealPlayer | src/world/world.go:218-242 | a refresh, then exactly the heal step |
| WorldEngine.Engine.Attack | src/world/world.go:244-308 | a refresh, then a blow at the weakest NPC in range, else at the weakest other player, and nothing only when there is no target |
| WorldEngine.AttackFindsATarget | src/world/world.go:257-294 | an attack comes to nothing only where no living NPC and no other living player is within two cells, and goes at NPCs first |
| WorldEngine.Engine.BuyItem | src/world/world.go:310-348 | a refresh, then exactly the purchase step |
| WorldEngine.Engine.RewardPlayer | src/world/tick.go:117-130 | exactly the reward step |
| WorldEngine.Engine.DropTreasure | src/world/tick.go:177-198 | adds to a treasure of the cell or puts a new one there; nothing outside the grid |
| WorldEngine.Engine.RefreshAll | src/world/tick.go:17-23 | everyone due is back, and nothing else happened |
| WorldEngine.Engine.SpawnMissing | src/world/tick.go:25-31 | terminates, and spawns until no NPC is missing or no cell is free |
| WorldEngine.Engine.SpawnTreasureMaybe | src/world/tick.go:32-36 | at most one treasure, only below the limit, on a walkable cell |
| WorldEngine.Engine.TakeTurn | src/world/tick.go:44-83 | a living NPC hits the weakest neighbour, or without one moves to the first free cell from a drawn direction |
| WorldEngine.Engine.BackgroundStep | src/world/tick.go:11-86 | exactly a round: respawns, spawns, perhaps a treasure, one turn for every NPC in id order |
| WorldEngine.Engine.CaptureCheckpoint | src/world/checkpoint.go:9-21 | after a refresh, sorted listings of exactly the world's players, NPCs and treasures |
| WorldEngine.Engine.RestoreCheckpoint | src/world/checkpoint.go:23-79 | the restored world of the specification; nothing for another map or version 0 |
| WorldEngine.SpawnIsProgress | src/world/tick.go:146-167 | a spawn adds an NPC or uses up one of the ids a restored world still holds, so the loop ends |

## Left out

- WorldEngine.Engine.constructor: gives the empty world; the spawns of NewWorld are steps, and its loops are not a method because they end only with luck and free cells.
- WorldEngine.Engine.MovePlayer: one clock reading serves the whole command, as in every other command; the source reads the clock again for each field.
- WorldEngine.Engine.RefreshAll: one clock reading serves a whole refresh and a whole round; the source reads the clock for each player.
- Nodes.NodeService.TickMap: events are only published or not, and other threads' steps of the world meanwhile are in `Drains`.
- Nodes.NodeService.Promote: the map's configuration is an argument with the map's id, as the RPC looks it up.
- Nodes.NodeService.FlagAndSave: the waiting loop of BeginDrain is left out; Drained is its exit test. The node's methods share their specification functions with `Drains`; that each performs its labels is stated for FailoverMap and the client pool alone.
- SenderObject.Sender.EnqueueControl: a call that waits returns and is taken up again by the part it waits in; who wakes it is in the transition system of StreamSenders.
- SenderObject.Sender.Turn: the write loop itself has no method, because it need not end.
- WorldRestore.RestoredNeverOverwritesIff: asks for the room named in its row; with eight treasures or without two free neighbouring cells the numbers may be out of reach. Its failing half is a run of single steps, as said of UsedNumberIsOverwritten.
- WorldRestore.UsedNumberIsOverwritten: the spawns follow each other without the NPC turns of their rounds, and on more than twelve free cells the ranking may not offer the cell.
- WorldBootstrap.BootstrapRuns: as in every run of steps a spawn takes any walkable cell; which cells the ranking offers is in WorldSpawn, and on maps of at most twelve floor cells it offers all.
- Nodes.NodeService.SaveFinalCheckpoints: cache and fences stay as they are while it runs; refreshes and commits between two turns are in `Drains`.
- StreamSenders.DrainTerminates: states that every step shortens the drain; that the writer is scheduled and Send returns is not modelled.
- Redis scripts are atomic steps over unbounded naturals; JSON encoding, doubles, comparison of epochs as text and the limit on unpack are assumed harmless.
- SaveCheckpoint (src/storage/store.go:301-307) has no caller outside tests and is not a step; SaveTopology (src/storage/store.go:411-420) is the compare-and-swap with a version it reads itself.
- Runs of worlds are sequences of single steps; that a command is a refresh and one step, and a round a certain sequence, is said of the methods of WorldEngine.
- A coordinator's id stands for its unique lease token; remote calls succeed, fail or lose their reply; registrations, health and a node's declared map are free choices in `Protocol`, which covers more runs than the code has.
- The Start step takes the leader term at once; the source reads Term and then IsLeader (src/coordinator/coordinator.go:264-267). The term is confirmed before the commit.
- RestorePrimaryMap (src/node/node.go:346-356), which restores a hosted world in place outside the drain's lock, has no caller and is not a step.
- Lease expiry, cache freshness and tickers carry no durations in `Protocol`; nothing is claimed about time or liveness.
- The campaign loop between acquire attempts and the renew loop are one step per turn.
- Players and NPCs are values in maps, so aliasing of their pointers is not modelled; the code keeps none across the lock. The aliasing of whole worlds on a node is.
- Snapshot, ProfileOf and FlushProfiles are RefreshAll or RefreshPlayer followed by a read; views, event texts and NPC names are left out.
- respawnPlayer (src/world/tick.go:100-115) has no caller.
- Health loops, pub/sub, the gateway's map cache, SwitchMap, Login, the world boss, SQL, passwords, gRPC and the terminal client are left out.
