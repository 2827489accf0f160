# The node manager and the fleet view, verified

Interflow's desktop application runs the nodes of a mesh on one machine. Its node manager owns one
table of nodes behind one lock, and around that table a set of concurrent tasks: user calls that
release the lock in the middle, a listener per engine, a bounded crash-restart loop, a credential
renewal per engine, and the consumer of an ordered event queue. Publishing a manifest converges the
managed nodes onto freshly rendered packs; the fleet view joins what the manifest declares with what
runs locally and with what the hub reports; a small database keeps the preferences.

This project models that logic in Dafny and proves what holds over every run of it.

## How the model is built

`Supervision` is a transition system. A `World` is the node table, the tasks, the engines, the event
queue and the restored profile. A `Step` is one section of code that runs while the lock is held, or
one move of the environment (an engine dies, a watch reports, a future ends, a pack fails to prepare,
a sink returns). Calls that release the lock are split at every release, so a run is an arbitrary
sequence of steps: any interleaving of any number of calls and tasks. A step that does not apply
leaves the world alone, so no precondition restricts the runs. Theorems about runs start from
`Restore`, the world an arbitrary persisted profile comes back as.

A start, a crash restart and the rebuild after a renewal read the spec under the lock, then load the node's pack
without it, then build under the lock again. The load is a step of its own, and an engine carries what
was loaded, not what the cache names.

`Sites` puts pack updates on top of it. A `Site` is the world, the packs on disk and the update calls in
flight; an update is split wherever it holds no lock (snapshot, checks, stop, swap, refresh, start, load,
build), and a run interleaves any number of updates with each other, with every step of the manager and with
directories that stop reading. Every load reads the directory as it is at that moment. `Sessions` states the
main theorems about packs of every run of a session that opens without duplicates.

`Manager.NodeManager` is the object whose methods update those fields in place. Every section is proved to
be the corresponding step, and the calls and tasks that release the lock (start, stop, stop-all, the end of an engine, the
restart loop, a renewal, a pack update, a publish) take what others do at each such point as an argument, so
what is proved about runs holds of them.

| file | what it is about |
|---|---|
| `Types`, `Supervision` | values, tasks, worlds, steps, runs |
| `Invariants` | the shape of every step, supervision linearity |
| `Engines` | where engines are, conservation |
| `Stops`, `Stale`, `Restarts` | stop, stop-all and quit; tasks of past generations; the restart loop |
| `Profiles` | the persisted profile |
| `EventLog`, `States` | the event queue against the states; the state a node is shown as |
| `Entries` | the table field by field: who writes what, adding and removing, the restart debt |
| `Sites`, `Identity` | updates in flight; identities over every interleaving |
| `Histories`, `Updates`, `Restoring` | what the last section left; generations; how an update ends |
| `Publish`, `Convergence` | the publish loop; what it guarantees of the packs in place |
| `Quits` | quit, stop-all and relaunch with calls and updates under way |
| `Provenance` | whose pack an engine runs |
| `Sessions` | the main theorems about packs, from an opened session |
| `LivePrefs` | live address edits |
| `Manager` | the class, section by section |
| `Principals`, `Fleet`, `Narrowing` | identities as text; the fleet view; 64-bit generations at a 32-bit interface |
| `Prefs` | the preferences database and its one-time import |
| `Races` | concrete runs for the properties that fail |

## Where the code does less than its comments say

Each of these has a concrete run or input, and a theorem that says exactly when the property holds.

- A stop-all or quit does not always keep engines down. Aborting a renewal has no effect once its
  future has ended, and a crash restart overwrites the handle of the previous renewal without aborting
  it; such a renewal installs a fresh engine afterwards (`Races.StopAllUndone`). `Stops.SweepSticksIff`
  gives the exact condition. A plain stop has no such gap, because it advances the generation
  (`Stops.StopIsFinal`).
- Tasks of a past generation do nothing, except that the renewal's section that takes the engine checks
  no generation. It can take the engine of a newer start
  (`Races.StaleRenewalTakesFreshEngine`, `Stale.OutdatedTasksAreInert`).
- A start whose engine build fails has already turned the intent on in memory, but queues no profile
  (`Races.FailedStartForgotten`, `Profiles.PersistRefinesProfile`, `Quits.QuitRoundTrips`).
- A quit does not always keep what was wanted. An update under way still stops its node after the quit, and
  persists that (`Races.QuitDuringUpdate`). `Quits.StaysWantedIff` says exactly which nodes are at risk.
- A preference edit that lands while a start is preparing is recorded but not live
  (`Races.EditMissedByStart`, `LivePrefs.TracksStepIff`).
- "The captured intent is restored" holds of an update nobody disturbs. A start between its stop and its
  end survives a successful update of an unwanted node, on an engine of the old pack
  (`Races.StartInsideUpdate`); a stop there is undone (`Races.StopInsideUpdateUndone`). Of two updates that
  overlap, one can succeed with its pack in the directory and the engine, and the other's in the cache
  (`Races.OverlapMislabels`). `Sessions.UpdateEnds` gives the exact condition. An update that fails after its
  stop leaves a wanted node unwanted, unless the last word since is a start (`Sessions.UpdateEnds`).
- "Installing moves forward only" holds of updates that do not overlap (`Sessions.UpdatesMoveForward`). Two
  that overlap can leave the older pack (`Races.OverlapLowers`, `Sessions.SwapLowersIff`). And the gate
  relies on the cached generation when a node's directory does not read; a swap that fails after the
  exchange leaves that cache behind (`Races.OlderAcceptedAfterLateSwap`, `Updates.FallsBehindIff`,
  `Updates.DowngradeIffCacheBehind`).
- A publish lists a node as converged by its cache, whatever its directory holds
  (`Races.HotWithEmptyDirectory`, `Sessions.PublishConverges`).
- The generation a remote agent has seen is dropped, not saturated, when it does not fit 32 bits; a
  converged stream then shows as catching up (`Narrowing.RemoteFalseAlarm`,
  `Narrowing.RemoteFalseAlarmIff`).
- A first open of the preferences database that fails after a legacy file was renamed, at a later rename or
  at the commit, rolls the tables back but not the rename (`Prefs.ProfileLost`, `Prefs.FailedImportLosesProfileIff`).

## Model

| member | source | states |
|---|---|---|
| Invariants.SupervisionIsLinear | src-tauri/src/node.rs:2239-2470 | in every reachable world at most one listener or restarter carries a given node and generation, although a crash restart hands its generation on to the listener of the engine it installs; no task is ahead of its node's generation |
| Invariants.TasksMoveStep | src-tauri/src/node.rs:1861-1940 | for every step of every call and task: tasks go on only along their own phases, keeping node and generation, only a start call spawns a start, only a renewal that still waits is aborted, and a new listener either belongs to a new generation or takes over from a restarter that ends in that very step |
| Invariants.NodesMoveStep | src-tauri/src/node.rs:1309-2114 | for every step: generations never fall, a spec changes only in its preferences or by a refresh, which writes everything but directory and preferences, only starts, crash restarts of the current generation and completed renewals install an engine, every other step can only empty the slot, turn intent off or announce a stop, and a node that appears is new and no duplicate |
| Invariants.InvRun | src-tauri/src/node.rs:2239-2614 | the invariant over runs, including that a listener watches the engine in its node's slot, a restarter finds only an engine reported dead, and a renewal that has begun keeps the expected-stop mark until its generation passes |
| Engines.EnginesConserved | src-tauri/src/node.rs:1861-2614 | in every reachable world no engine is in two places (slots, graceful shutdowns, drains), and every step leaves each engine where it was, hands it from its slot to exactly one graceful shutdown, completes a graceful shutdown, or drops one that is dead or was reported dead |
| Engines.LiveEnginesNeverDropped | src-tauri/src/node.rs:746-759 | a live engine in a slot is after any step still there, or in exactly one graceful shutdown, unless its own listener had been told that it ended |
| Stops.StopIsFinal | src-tauri/src/node.rs:1945-1981 | after a stop, whatever restarts, renewals and listeners do, the slot is empty, the intent off and the stop expected until a start reaches its build |
| Stops.SweepSilencesRestarts | src-tauri/src/node.rs:1988-2090 | after stop-all or quit no crash restart brings a node up: only a start or the last section of a renewal can |
| Stops.SweepSticksIff | src-tauri/src/node.rs:1988-2090 | stop-all or quit keeps a slot empty in every start-free future if and only if, before it, every renewal of the node's generation still waits for its future and still has its handle in the table |
| Stops.Revive | src-tauri/src/node.rs:2499-2570 | any renewal of the current generation that has not failed has a continuation, with no start in it, that puts an engine into the slot |
| Stale.OutdatedTasksAreInert | src-tauri/src/node.rs:2123-2133 | a task of a past generation writes, queues, spawns and builds nothing, except that the renewal's take empties the slot into its own hand and does nothing else |
| Stale.OutdatedTasksEnd | src-tauri/src/node.rs:2384-2614 | a task that checks the generation and finds it past ends in that section |
| Stale.OutdatedForever | src-tauri/src/node.rs:1861-1940 | a task that is outdated stays outdated, or ends, over every run |
| Restarts.RestartLoopEnds | src-tauri/src/node.rs:2384-2470 | against any policy that grants finitely many restarts and under any interference, a restart loop runs at most five sections per restart and six more, and while it is not over it has a section to run |
| Restarts.RestartOutcome | src-tauri/src/node.rs:2384-2470 | it ends by installing a live engine with its own listener, by giving up with the budget spent (empty slot, Failed shown and queued), or quietly because a newer start or stop owns the node |
| Restarts.DebtStep | crates/mesh/src/agent/restart.rs:33-75 | within a generation the attempt debt never falls, except through that generation's own listener after a healthy streak |
| States.StateStep | src-tauri/src/node.rs:1800-2614 | for every step: the state of a node changes only by the sections that write it, to what each of them writes (what the watch showed, what the build showed, Stopped, the failure, the announced wait), and never by a task of a past generation |
| States.StateRun | src-tauri/src/node.rs:2123-2133 | over every run a node's state is the last one written for it |
| States.ShownIsLastWritten | src-tauri/src/node.rs:1239-1250 | over every run of a session the interface shows the last state written for the node, or has yet to be told of a Stopped while a stop-all or quit drains |
| States.DrainedState | src-tauri/src/node.rs:2010-2021 | a node drained by a stop-all or quit is Stopped at any later point if and only if no other state was written for it since its drain |
| States.SweepEndShows | src-tauri/src/node.rs:2029-2037 | the closing section shows Stopped for exactly the nodes whose state is Stopped and nothing else anew |
| States.StopEndShows | src-tauri/src/node.rs:1961-1981 | the end of a stop leaves the node Stopped and shown so, unless its engine's shutdown failed, and then changes nothing |
| States.ServerRestartsIff | src-tauri/src/node.rs:2302-2382 | with any steps of others between the terminal state of a dead hub or ingress and the decision, it goes on to the restart loop if and only if that state is a failure, the generation is current and no stop is expected |
| Entries.FieldsStep | src-tauri/src/node.rs:1309-2614 | for every step and every field of a node's entry (expected stop, generation, debt, slot, renewal handle, address table, preferences): which steps write it, and what |
| Entries.KeysStep | src-tauri/src/node.rs:1309-1386 | a node is in the table after a step if and only if it was and is not removed, or is added: an idle entry of its spec, with no known identity or directory taken twice; every other entry stays |
| Entries.EntryRun | src-tauri/src/node.rs:1403-1470 | over every run the preferences are those of the last edit that went through, whatever packs were installed; the generation counts starts, stops and completed renewals; the expected stop is the last word on it |
| Entries.RemovedForGood | src-tauri/src/node.rs:1374-1386 | an accepted remove takes the node, and nothing else, out of the table and of the profile queued with it, and no later table and no profile queued or left on disk from then on knows it |
| Entries.BackoffDoubles | crates/mesh/src/agent/restart.rs:53-63 | the wait is one second at the first attempt and doubles with each, up to thirty |
| Entries.AtMostThreeRestarts | crates/mesh/src/agent/restart.rs:40-63 | in every reachable world no node owes more than three restarts, and a restarter of the current generation announces the wait of the attempt just charged |
| Entries.RestoredNode | src-tauri/src/node.rs:1269-1305 | a restored node is idle and wanted as persisted, with the persisted directory and preferences, and what its pack says, or nothing known at generation zero when that does not read |
| Entries.LostForGood | src-tauri/src/node.rs:2574-2614 | a renewal whose future ended in an error never installs an engine; while its generation is current it shows that error |
| Entries.RefusalNoted | src-tauri/src/node.rs:2094-2114 | a start that fails to prepare is shown with its reason if it was a start at launch, whatever others did in between, and leaves no trace otherwise |
| Entries.WatchedAsItIs | src-tauri/src/node.rs:1861-1940 | in every reachable world a listener watches an engine as what it was built as, agent or server, and a loaded pack is of the kind its spec recorded |
| EventLog.LogRefinesState | src-tauri/src/node.rs:1239-1250 | replaying the queue gives every node's state whenever no stop-all or quit is draining; at all times a difference can only be a Stopped that is still to be announced |
| EventLog.SettleIsABarrier | src-tauri/src/node.rs:1256-1267 | when the consumer has passed a settle's marker, everything queued before it was handed on in order; if nothing was queued since and nothing is draining, the interface shows the manager's states |
| Profiles.PersistRefinesProfile | src-tauri/src/node.rs:1040-1063 | over every run the last profile queued is the manager's own if and only if no start has flipped an intent and failed to build since a profile was last queued; at worst the disk has an intent off that memory has on |
| Quits.QuitRoundTrips | src-tauri/src/node.rs:2048-2090 | quit, whatever calls, tasks and updates under way still do, and relaunch bring back the same nodes with the same preferences, and want what was wanted at the quit, each node corrected by the last stop or start since, if and only if no intent is owed to the disk |
| Quits.StaysWantedIff | src-tauri/src/node.rs:1481-1555 | a node wanted when no new call comes in any more stays wanted in every continuation if and only if no update of it has its stop still to do (checks passed, or still to pass with a known identity) |
| Quits.StaysUnwanted | src-tauri/src/node.rs:1609-1618 | a node not wanted then stays so in every continuation unless a start of it, or an update that may still start it, is under way |
| Quits.CalmQuit | src-tauri/src/node.rs:2048-2090 | when neither kind is under way, quit and relaunch want exactly what was wanted, if and only if no intent is owed to the disk |
| Quits.StopAllRelaunchWantsNothing | src-tauri/src/node.rs:1988-2037 | stop-all and relaunch, with calls, tasks and updates still under way, want no node but one whose last word afterwards is a start |
| Sites.SiteRunIsARun | src-tauri/src/node.rs:1481-1625 | with any number of updates in flight, what happens to the table is a run of the protocol's own sections, so every theorem about runs of the manager covers it |
| Identity.SiteInvRun | src-tauri/src/node.rs:1481-1625 | over every interleaving of updates, other calls, tasks and vanishing packs: no duplicates, packs and caches of one identity per directory, every update in flight stands for that identity, and owns the stop or start it waits for |
| Sessions.IdentitiesStayUnique | src-tauri/src/node.rs:1586-1596 | from a session opened without duplicates no run makes two nodes share a known principal or a canonical directory, and no node's own ever change, although every refresh writes the principal anew |
| Identity.GoneForever | src-tauri/src/node.rs:1374-1386 | a removed id never comes back |
| Updates.UpdateRefusedIff | src-tauri/src/node.rs:1497-1548 | the checks refuse, with nothing touched, if and only if the source does not load, the identity is unknown or differs, or the source is older than what is in place; the reason is the first of these that fails; otherwise the update goes on with that source |
| Updates.BrokenIff | src-tauri/src/node.rs:1550-1616 | section by section, when exactly an accepted update breaks off and with which reason: node gone, shutdown failed, swap failed, pack not loaded, start refused or not built |
| Sessions.SwapLowersIff | src-tauri/src/node.rs:1519-1555 | in every session, with any steps between an update's checks and its swap, the swap lowers the generation in place if and only if the last pack put into the directory since the checks is newer than its source or, if the directory does not read, the last generation recorded since (or cached then) is |
| Updates.InPlaceFallsIff | src-tauri/src/node.rs:1519-1612 | which single steps lower the generation in place: putting an older pack there, emptying the directory while its cache is behind, or recording an older pack while nothing reads |
| Sessions.UpdatesMoveForward | src-tauri/src/node.rs:1474-1548 | over every run of a session in which no two updates overlap on the node's directory, with all other steps free to come between their sections, the cached generation never falls, and the generation in place never falls unless the directory is emptied while its cache is behind |
| Updates.DowngradeIffCacheBehind | src-tauri/src/node.rs:1519-1548 | once a directory stops reading, an update accepts an older pack than was there if and only if the cache was behind it |
| Updates.FallsBehindIff | crates/cli/src/node_install.rs:241-288 | without overlap a cache falls behind if and only if a newer pack is swapped in; a swap reported as done goes on to record it, one that fails after the exchange ends the update |
| Restoring.WindowOpens | src-tauri/src/node.rs:1550-1552 | an update's stop section takes the node down and opens the window in which others may interfere |
| Sessions.UpdateEnds | src-tauri/src/node.rs:1550-1624 | how an update ends, whatever ran between its sections. A successful one: its report; the captured intent if and only if the node was wanted or the last word on the intent since its stop is not a start; everything it promises (intent, source in place and cached, a live engine built from it) if and only if the last pack put there, the last one recorded, and the last one put there when its own start loaded it, are its own; and an empty slot unless a start or a completed renewal had the last word on it. A failed one: the node is wanted if and only if the last word since its stop is a start, and a node left unwanted is unwanted on disk too |
| Provenance.EnginesRunTheirOwnIdentity | src-tauri/src/node.rs:630-731 | in every site a session without duplicates reaches, with any number of updates in flight, the engine in a node's slot runs a pack of the node's own identity, because every start, crash restart and rebuild loads what the node's directory reads as |
| Restoring.LaunchFailureLeaves | src-tauri/src/node.rs:1800-1849 | an update's own start that fails before its build changes nothing of the table; one whose build fails leaves the node wanted with an empty slot and queues no profile |
| Restoring.EndsRunning | src-tauri/src/node.rs:630-731 | an update of a node that was wanted ends with the node wanted, not expected to stop, and alive on an engine of the last pack put in its directory when its own start loaded it |
| Publish.Newest | src-tauri/src/commands.rs:1207-1219 | the chosen pack is of the node's identity, no pack of that identity is newer, and none listed later is as new; none is chosen only if there is none |
| Publish.Classified | src-tauri/src/commands.rs:1197-1240 | a node is skipped if and only if no pack of its identity was rendered or it was not managed at the look; otherwise hot if and only if its cached digest is the newest pack's, else updated if and only if its update reports so, and failed, with the update's own reason, if and only if it was refused or broke off |
| Publish.ReportComplete | src-tauri/src/commands.rs:1197-1240 | the three lists together name exactly the owned nodes the publish is concerned with, each once per listing |
| Publish.ListedOnce | src-tauri/src/commands.rs:1197-1240 | with distinct names, each such node's name is in exactly one of the three lists, exactly once |
| Publish.OwnedIsInScope | src-tauri/src/commands.rs:1174-1188 | exactly the nodes in scope are owned, each as often as it is listed |
| Publish.CollectOwned | src-tauri/src/commands.rs:1174-1188 | the nodes of this deployment, in order |
| Publish.ConvergeAll | src-tauri/src/commands.rs:1197-1240 | the loop over the real manager, with steps of others between and within the turns: it is a run of the site, every listed node took its turn in it, the three lists hold exactly the names of the nodes with each verdict, in order, together they name exactly the nodes the publish is concerned with, and with distinct names each of those is in exactly one list |
| Publish.Converged | src-tauri/src/commands.rs:1190-1245 | the four kinds of change: nothing happens, everything is listed as hot, or the loop runs |
| Sessions.PublishConverges | src-tauri/src/commands.rs:1197-1240 | in every session, of every listed node at the end of the whole run: its identity is its own; listed as updated, the newest pack of its identity was put in its directory within its turn and is still there if and only if nothing else was put there since; listed as hot, that digest is in place if and only if directory and cache agreed when the publish looked (and nothing else was put there since); listed as failed, it was refused with nothing touched by its update, or was stopped within its turn and, at the end of the turn, is wanted if and only if the last word since that stop is a start; and the generation in place has not fallen unless updates overlapped or a directory was emptied while its cache was behind |
| Convergence.UndisturbedPublish | src-tauri/src/commands.rs:1229-1240 | when nobody else updates the node or takes its directory away, a node listed as updated has exactly the newest pack of its identity in place when the whole run ends |
| LivePrefs.LastEntryWins | src-tauri/src/node.rs:1403-1470 | an id is wanted if and only if it is listed, with the address of its last entry |
| LivePrefs.EditReplacesIff | src-tauri/src/node.rs:1403-1470 | setting and clearing entry by entry equals replacing the live table if and only if it held nothing that was neither recorded nor listed anew |
| LivePrefs.TracksStepIff | crates/cli/src/runtime.rs:472-509 | a live table equal to the recorded preferences stays equal under every step of every call and task if and only if the step does not build an engine from a spec read before an edit |
| LivePrefs.StaleNeedsEdit | src-tauri/src/node.rs:1800-1849 | a build is stale only if an edit went through after its start, restart or rebuild read the spec |
| LivePrefs.TracksRun | crates/mesh/src/config/service_addresses.rs:136-147 | over every run without such a build the live table is the recorded preferences |
| Manager.NodeManager.Add | src-tauri/src/node.rs:1309-1371 | accepted if and only if no managed node has the same known principal or the same canonical directory; on success the table gains exactly that idle entry and the new profile is queued, otherwise nothing changes |
| Manager.NodeManager.Remove | src-tauri/src/node.rs:1374-1386 | accepted if and only if the node is known and its engine is not alive; on success the table loses exactly that node and the profile without it is queued, otherwise nothing changes |
| Manager.NodeManager.ParsePrefs | src-tauri/src/node.rs:1403-1470 | parses if and only if every address is a loopback socket address, to the map in which the last entry of an id wins |
| Manager.NodeManager.EditLive | crates/mesh/src/config/service_addresses.rs:136-147 | the two loops of sets and clears amount to the edited table |
| Manager.NodeManager.SetPrefs | src-tauri/src/node.rs:1403-1470 | all or nothing: refused for an unknown node, a restart-only change of a running node or any bad address, with nothing touched; otherwise the requested transport, QUIC address and overrides are in the spec, and table, spec and queue change together |
| Manager.NodeManager.StartCommit | src-tauri/src/node.rs:1800-1849 | the start's critical section is the start step; it succeeds if and only if the node is known, not alive and the build goes through, and then the node is wanted, owes nothing, and runs an engine of what was loaded in its next generation |
| Manager.NodeManager.Start | src-tauri/src/node.rs:1800-1849 | a whole start, with arbitrary steps of others between reading the spec, loading and building: a run of the protocol; if it succeeds the node is wanted, up on what was loaded, shown as its engine shows, and persisted |
| Manager.NodeManager.Stop | src-tauri/src/node.rs:1945-1981 | a whole stop, with arbitrary steps of others during the shutdown: it fails if and only if the node is unknown or its engine's shutdown failed, and otherwise leaves a node that is still managed Stopped and shown so |
| Manager.NodeManager.SweepBegin | src-tauri/src/node.rs:1988-2066 | the loop over the table is the sweep step at once: every renewal aborted, every slot emptied, exactly the live engines collected, intent cleared and persisted only by stop-all |
| Manager.NodeManager.SweepEnd | src-tauri/src/node.rs:2029-2037 | one Stopped event for exactly the nodes whose state is Stopped |
| Manager.NodeManager.WatchClosed | src-tauri/src/node.rs:2267-2281 | a restart is decided if and only if the generation is current, no stop is expected and the final state is not terminal |
| Manager.NodeManager.LifecycleEnded | src-tauri/src/node.rs:2312-2330 | a hub or ingress is restarted if and only if it failed in the current generation with no stop expected |
| Manager.NodeManager.StopAll | src-tauri/src/node.rs:1988-2090 | the whole of stop-all or quit, with arbitrary steps of others between the sweep, the single drains and the closing events: it ends and is a run of the protocol that begins with the sweep; every node it found running and that is still managed was drained, and is Stopped if and only if no other state was written for it since; and every node that is Stopped is shown so |
| Manager.NodeManager.AgentEnded | src-tauri/src/node.rs:2239-2300 | from the watch closing to the end of the restart loop, with arbitrary steps of others: a run of the protocol that enters the loop if and only if an engine of the current generation ended unexpectedly |
| Manager.NodeManager.ServerEnded | src-tauri/src/node.rs:2302-2382 | the same for a hub or ingress, from the terminal state its dead engine shows, with others free to run before the decision: it enters the loop if and only if that state is a failure and, at the decision, the generation is current and no stop is expected |
| Manager.NodeManager.CredentialsRenewed | src-tauri/src/node.rs:2499-2614 | a completed renewal, with arbitrary steps of others wherever it holds no lock: a run of the protocol that ends with the node up in the next generation, its debt cleared, on what it loaded, or with the node in another generation or shown as failed |
| Manager.NodeManager.CredentialsLost | src-tauri/src/node.rs:2499-2614 | a failed renewal is a run of the protocol that ends with the node shown as failed, unless a newer start or stop owns it |
| Manager.NodeManager.RestartAfterDeath | src-tauri/src/node.rs:2384-2470 | with arbitrary steps of others wherever the lock is free, the loop terminates, is a run of the protocol, keeps the invariant, and its last section has one of the three outcomes |
| Manager.NodeManager.UpdatePack | src-tauri/src/node.rs:1481-1625 | with arbitrary steps of others wherever it holds no lock, the method is a run of the site that begins with its snapshot, makes only its own moves with what the environment decides, and returns what its last section reports |
| Principals.PrintRoundTripsIff | src-tauri/src/fleet.rs:24-32 | an identity reads back from its printed form if and only if its segments hold no slash |
| Principals.PrintedInOrder | src-tauri/src/node.rs:521-529 | an identity prints as realm, workspace, kind and name, joined by slashes |
| Principals.PrintOfParse | src-tauri/src/fleet.rs:24-32 | any text that parses prints back to itself, with slash-free segments |
| Principals.PrintInjective | src-tauri/src/node.rs:521-529 | distinct slash-free identities print differently |
| Principals.PackReadsBack | src-tauri/src/node.rs:521-529 | the printed identity of a pack reads back segment by segment, the workspace defaulted to a dash |
| Fleet.JoinPartitions | src-tauri/src/fleet.rs:95-152 | for all declarations and nodes, each node is in exactly one row or left over, counted with multiplicity, and what is left keeps its order |
| Fleet.GreedyIsDeclarative | src-tauri/src/fleet.rs:95-152 | when no two declarations name one node and none names two, the greedy join is the declarative one: each row has the node its declaration names, the rest is what nothing names |
| Fleet.DistinctNamesSuffice | src-tauri/src/fleet.rs:36-50 | distinct declared names and distinct principals guarantee that condition |
| Fleet.StatusTable | src-tauri/src/fleet.rs:79-213 | when exactly a stream is catching up, serving, down or unknown: it catches up if and only if what its source runs, applied here or seen by the hub, is unknown or below what the hub serves, or below its floor while that is unknown; a lag wins over any listener, and only a local listener can serve or be down |
| Fleet.FloorIgnored | src-tauri/src/fleet.rs:81-84 | while what the hub serves is known its floor does not matter |
| Fleet.NamesIff | src-tauri/src/fleet.rs:24-50 | a declaration with slash-free segments names a node if and only if the node's identity is the declared one, printed; for a hub or ingress with any workspace |
| Fleet.StreamTells | src-tauri/src/fleet.rs:157-214 | a stream carries the bound address and last error of the first listener of its rule whatever the verdict, a serving one has an address and a down one has none, and it names its source if and only if that runs here |
| Fleet.ServiceTells | src-tauri/src/fleet.rs:216-232 | a service face shows the effective address and override of the first reported service of its id, and nothing where the agent does not run or report it |
| Fleet.RowTells | src-tauri/src/fleet.rs:110-152 | a row has name, kind and workspace as declared, its taken node, and for an agent only the hub's row of its qualified id |
| Fleet.StatusMonotone | src-tauri/src/fleet.rs:81-84 | applying a newer generation never starts a catching-up, and a hub that serves no less, or whose floor is no lower while what it serves is unknown, never ends one |
| Fleet.RemoteStatusMonotone | src-tauri/src/fleet.rs:65-77 | the same for a source known only through the hub |
| Fleet.TakeLocal | src-tauri/src/fleet.rs:99-106 | the search loop finds the first node the declaration names and removes exactly that one, or finds none and leaves the list |
| Fleet.Compose | src-tauri/src/fleet.rs:89-243 | the whole view: one row per declaration, agents, then hubs, then ingresses, each in declared order, a partition of the nodes, the declarative join under distinct names, one stream per declared rule and one face per declared service |
| Fleet.FlattenAt | src-tauri/src/fleet.rs:155-231 | streams and services are listed agent by agent, and within an agent in declared order, each exactly once |
| Narrowing.LocalStatusNarrows | src-tauri/src/contract.rs:303-319 | for a local source narrowing never raises a false alarm, and the shown status is the true one if and only if the lag is not hidden at the top of the range |
| Narrowing.RemoteFalseAlarmIff | src-tauri/src/contract.rs:1113-1130 | a converged remote stream shows as catching up if and only if the seen generation exceeds 32 bits |
| Narrowing.InversionVerdict | src/api.ts:342-344 | a shown policy inversion is real, and a real one is missed if and only if the hub's generation is at or past the top of the range |
| Prefs.PrefsDb.InsertNodes | src-tauri/src/prefs.rs:320-344 | the rows of all entries in order, or failure if and only if an id repeats |
| Prefs.PrefsDb.SaveNodes | src-tauri/src/prefs.rs:201-208 | replaces all rows or none |
| Prefs.PrefsDb.Nodes | src-tauri/src/prefs.rs:172-198 | every row in order with its directory anchored, or failure if and only if some row has addresses that do not decode or an unknown transport |
| Prefs.PrefsDb.Open | src-tauri/src/prefs.rs:88-168 | a newer shape is refused untouched, the current one left alone, and an older one created and filled from the legacy files in one transaction that a failed rename or commit rolls back, the renames staying |
| Prefs.AnchoredWhere | src-tauri/src/prefs.rs:170-173 | a relative directory is anchored below the database's own, a tilde below the home directory, and nothing else moves |
| Prefs.FirstOpenIff | src-tauri/src/prefs.rs:88-168 | a first open succeeds if and only if every file present imports and renames and the commit goes through; which files are gone after one that fails, and that the tables are as before |
| Prefs.NodesRoundTrip | src-tauri/src/prefs.rs:296-344 | a saved node list reads back in order, field by field, with anchored directories |
| Prefs.DomainsAreIndependent | src-tauri/src/prefs.rs:201-271 | over any interleaving of saves and reopens each reader gets the last value committed to its own domain |
| Prefs.ImportHappensOnce | src-tauri/src/prefs.rs:134-168 | what the legacy files held reads back after a first open, and no later open looks at them again |
| Prefs.FailedImportLosesProfileIff | src-tauri/src/prefs.rs:88-168 | after a failed first open, a later one finds the legacy node list if and only if its file had not been renamed |
| Races.StopAllUndone | src-tauri/src/node.rs:1988-2037 | a run in which stop-all is followed by a node coming up with no start |
| Races.StaleRenewalTakesFreshEngine | src-tauri/src/node.rs:2521-2530 | a run in which a renewal of a past generation takes the engine of a newer start |
| Races.FailedStartForgotten | src-tauri/src/node.rs:1800-1849 | a run in which a failed start is wanted in memory and not on disk |
| Races.EditMissedByStart | src-tauri/src/node.rs:1403-1470 | a run in which an accepted edit is recorded but not live |
| Races.StartInsideUpdate | src-tauri/src/node.rs:1550-1616 | a run in which an update of an unwanted node succeeds and leaves it wanted, alive on an engine of the old pack, with the new pack in its cache |
| Races.StopInsideUpdateUndone | src-tauri/src/node.rs:1550-1616 | a run in which a stop inside an update is undone by the update's own start |
| Races.OverlapMislabels | src-tauri/src/node.rs:1550-1616 | a run of two overlapping updates in which the first succeeds with its pack in directory and engine while the cache names the other's |
| Races.QuitDuringUpdate | src-tauri/src/node.rs:1550-1552 | a run in which an update stops its node after the quit, so that the relaunch does not want a node that was wanted, with nothing owed to the disk |
| Races.OverlapLowers | src-tauri/src/node.rs:1519-1555 | a run in which two overlapping updates leave the older of their packs in place |
| Races.OlderAcceptedAfterLateSwap | src-tauri/src/node.rs:1519-1555 | a run in which a swap fails late, the directory stops reading, and an older pack is then accepted |
| Races.HotWithEmptyDirectory | src-tauri/src/commands.rs:1229-1234 | a publish that lists a node as hot although its directory no longer reads |
| Narrowing.RemoteFalseAlarm | src-tauri/src/contract.rs:1113-1130 | a converged remote agent whose seen generation is just past 32 bits shows as catching up |
| Prefs.ProfileLost | src-tauri/src/prefs.rs:88-168 | a first open whose deploy rename fails, after which the node list is gone |

## Left out

- Manager.NodeManager.Add: the fresh id is a parameter that must be unused, as a minted identifier is taken to be (a caller that supplies an id of its own, which the application never does, would overwrite that entry); canonicalising a directory is part of the directory value, and reading a pack and adding its node are one step.
- Prefs.PrefsDb.Open: SQL, the ordinal column, file permissions and TOML or JSON encodings are not modelled; a legacy file is absent, garbled or readable.
- Sessions.PublishConverges: speaks of nodes that are still managed at the end of the run; what becomes of the directory of a node that is removed meanwhile is not stated.
- Sessions.IdentitiesStayUnique: starts from a table without duplicates; restoring a profile does not check for them.
- Supervision.AbortTask: an abort that reaches a renewal between its future and its first section takes effect at the renewal's next wait. The model lets that renewal go on, which is what it does while the slot is empty; if it takes a newer engine instead, the code cancels it inside that engine's graceful shutdown, and the model completes the shutdown.
- Sessions.UpdateEnds: the empty slot is stated in one direction, because a renewal that completes inside the window may end with the slot empty as well.
- Identity.SiteInvRun: a swap takes place in one step on one directory. The code stages it beside the node's directory under a name shared by the parent directory and the process, so two swaps under one parent that overlap could exchange their packs; swaps under one parent are taken not to overlap.
- Quits.StaysUnwanted: one direction only; whether a start under way comes through also depends on what its directory reads as when it loads.
- Manager.NodeManager.RestartAfterDeath: what its directory loads as at each attempt is a parameter, as the other steps it takes are steps of the manager alone; in `Sites` the load reads the disk. The same holds of Start and CredentialsRenewed.
- A launch start is a start of any node: the code collects the wanted nodes once, so a node stopped before its turn is started all the same, and the model lets it be.
- The start of the desired set at launch and the healthy-streak note are steps of the transition system without a class method of their own; the connected-since instant behind a healthy streak is a parameter.
- A pack that loads but fails a later check of the preparation: the start fails at the build or before it, which is a choice of the environment; of those checks only the one on its kind is modelled.
- A pack that appears in a directory other than by an update: directories only stop reading, or are swapped; a renewal that rewrites its own directory in place is not a change of the disk.
- The profile is a map from id to entry; the order in which its entries are written is not modelled.
- Time: back-off and healthy streaks are numbers and flags; nothing sleeps.
- Error texts other than the two fixed restart texts and the renewal text are shortened.
- What a Connected state says about the hub beyond the agent id.
- The policy, peer, proposal and listener forwarders, credential health, log attribution and the engine built from a bare future: they only publish values.
- The inside of the swap (staging, backup, key permissions, removal of a consumed staging directory): a swap succeeds, or fails before touching the directory, with the directory moved aside, or with the new pack in place.
- Sinks that fail, a closed event channel and a poisoned lock.
- The data plane: tunnels, transports, TLS, policy evaluation and the hub.
