# Models of levilamina-rust-loader

A loader that runs Rust mods inside a Bedrock server: it keeps their callbacks, services and lanes, loads
and unloads them at runtime, rewrites packets for them, and runs plot worlds. These files model the parts
where state and algorithm are intricate, and prove what the code is for. Everything verifies with
`dafny verify dfyconfig.toml`.

| files | subject |
|---|---|
| `Machine`, `Walks` | fixed-width C++ arithmetic; walks in a graph |
| `PlotGeometry`, `PlotArea`, `DimGrid`, `PlotConfine`, `DimensionRules` | plots, merge groups, the cached bounded group search, the entity and piston hooks, the rule table |
| `Dependents`, `ModControl` | the unload order, and the load, unload, cascade and reload commands |
| `Ownership`, `Tickets`, `Services`, `Bus`, `LaneBooks`, `Lanes` | the tables of the loader, each alone |
| `LoaderState`, `LoaderSteps` | all tables together as one state: what holds at every moment, and why each step keeps it |
| `LoaderPrograms`, `LoaderKeeping`, `LoaderEffects`, `LoaderDispatch`, `LoaderReach`, `LoaderCalm` | mods as programs over the loader's interface: what they get registered, what their calls set off, whom they reach, what they leave to others |
| `LoaderLifecycle`, `LoaderPurge`, `LoaderOutcomes` | how loading and unloading end, how every table lets go of a mod, and exactly when something is left behind |
| `Loader` | the loader itself under re-entrancy |
| `LoaderRuns` | runs in which the code does not keep what one would expect |
| `PacketCodec`, `PacketHooks` | the header codec, the rewrite chain, the registry, the inbound pump |
| `PlotGenerator` | the chunk generator and its reused buffer |
| `EventMerge`, `Slider` | the three-way write-back of events; slider normalisation |

## How the pieces fit

**Plots.** `PlotArea.SameArea` says what an area is without any search: two columns on the open road, or two
owned columns whose plots are one, or lie in one merge group of at most 4096 plots. `SameAreaEquivalence`
proves that this is an equivalence relation, and `DimGrid` proves that the bounded search with its memo and
its set of oversized groups computes exactly that, whatever has been asked before (its class invariant says
that every remembered root is the true one and every plot remembered as oversized is in a group that is too
large). Confinement over runs of moves, and the piston rule, follow.

**Commands.** `DependentsOf` is the breadth-first closure and Kahn's algorithm of the source, with duplicate
entries. `LoaderMods` keeps a ghost trace of every state its tables pass through; `AlwaysSafe` is the claim
about all of them, so a command that fails half-way is covered.

**Tables under re-entrancy.** `Loader` holds the real table classes. A mod is whatever it does: the `n`-th
callback entry of a run executes an arbitrary finite program of API calls (`script(n)`), which may publish,
call services, take and give back leases, load, disable, reload and unload mods, itself included, from any
callback: subscribers, services, tasks, forms, entry points, `on_enable`, `on_disable`, `on_unload`, and the
`retain` and `release` of lanes. All methods terminate: the measure is lexicographic in the nesting of
callbacks made by commands and lanes (`budget`, any number), the room left under the two depth caps of 8, and
the program left. `Good`, part of `Valid`, is what holds at every moment, in the middle of nested callbacks too:

* every entry of every table, and every release still due, belongs to a living mod;
* the record `log` holds every callback entry, with its reason and the mods alive then, and every end of a
  mod; each entry was into a living mod, and no mod that had gone is alive in any later entry;
* for every lane ever published the `retain` and `release` entries on record, which went into its own
  provider, are exactly those its leases call for, less those a retirement under way still owes (`dues`).

The first two hold until a mod goes leaving something behind (`leaked`, which `Goes` sets exactly then), and that
happens only for a reason on record: `leaked` implies `rogue` or `slips`. `rogue` says that a mod registered
something while the tables were letting go of it. `slips` says that a mod went unasked: another one of its name
displaced it, its load failed although its entry point had got something registered that it did not withdraw
(`HarmlessEntry`), or it was unloaded with releases into it still due or its name in use by somebody else meanwhile
(`Disturbed`). Otherwise the purge of `src/bridge/core/ApiTable.cpp` is what keeps the tables clean, and
`Loaders.Loader.Drive` states that for whole runs. A mod that has gone is told apart from a later one at the same
address by its `born` number, which stands for the weak pointer. `moments` in a contract are the states a program or a dispatch runs through, one an operation
or turn. What each operation does to them is `LoaderEffects.Effect`, a recursive predicate: publishing, calling a
service, lending, retiring, loading, enabling, disabling, unloading and reloading are told by the programs of the
callbacks they set off (`Played`, `Called`, `Continued`), and those by the `Effect` of their own operations, down to
any depth; it is well-founded because each nested callback has less `budget` or less room under a depth cap. What
it comes to for the next entry on record is stated without it in `LoaderReach`. `Loaders.Loader.React` ties every
event from outside to it, and `Loaders.Loader.Drive` a whole run, event by event. For programs that only touch tables the outcome is a
function (`PlainCall`), and the exact conditions below are read off such programs. While a mod is purged its
lanes' and leases' callbacks may do anything; when those that are played only touch tables (`PlainSince`, a matter
of the script alone), the other mods keep exactly the leases that have nothing to do with the mod, their lanes, and
every registration they do not withdraw themselves (`LeavesOthers`).

`Loaders.Loader.ControlLoad` and `ModControl.LoaderMods.ControlLoad` are the same source function seen twice:
in `Loader` with all tables and callbacks, in `ModControl` as the change of the loaded names that the commands
reason about, with the outcome of the callbacks given by `Env`.

## What the code does not keep

* Setting a new plot geometry keeps the merge table (`src/more_dimensions/plot/PlotConfine.cpp:323-330`), although
  `src/LeviRsAbi.h:1880` says it is cleared. The model keeps it (`PlotConfine.GridTable.SetPlotGrid`).
* A seam belongs to a plot when either side claims the merge; the comment in `PlotConfine.h` speaks of the
  west or north side only.
* Clearing the rules of a dimension forgets rule numbers 0 to 12 but resets the count, so a rule set under
  another number goes stale. `DimensionRules.ClearKeepsCountIff` says exactly when;
  `DimensionRules.ClearForgetsUnknownRule` is the example.
* `PlotLayout` promises bedrock at y = -64 always; a floor at or below it leaves none
  (`PlotGenerator.BedrockIffFloorAbove`).
* A load whose entry point fails, or whose version is refused, frees the mod without letting go of what it
  registered (`src/core/RustModManager.cpp:63-115`); `on_load` runs inside the entry point.
  `LoaderRuns.FailedLoadLeaks` is the run. An entry point that is a program on the tables leaks if and only
  if some accepted registration is not withdrawn later in that program (`LoaderOutcomes.FailedLoadLeaksIff`).
  After a leak, the bus may take a new mod at the same address for the old one, which the model follows; that
  the freed object is read first is not part of this model.
* Nothing keeps a mod from ordering its own unloading out of `on_enable`, and enabling then reports success
  for a mod that is gone: `LoaderRuns.EnabledThoughGone` is the run. For an `on_enable` that ends so, the mod
  runs afterwards if and only if its `on_unload` refused (`LoaderOutcomes.EnabledIffNotUnloaded`); in general
  success means that the mod runs when no entry point or `on_unload` was entered under its name meanwhile
  (`Loaders.Loader.Enable`, `Loaders.Loader.ControlLoad`).
* `unload` ends by dropping whoever bears the name by then (`src/core/RustModManager.cpp:188`). A mod that
  reloads itself out of `on_unload` makes that its successor, whose entries then stay:
  `LoaderRuns.SuccessorErased`. For an `on_unload` that does some work on the tables and ends so, something is left
  behind if and only if releases into the mod were due or the successor gets something registered, by its entry
  point or its `on_enable`, that it does not withdraw (`LoaderOutcomes.ReloadedUnloadLeaksIff`; the condition is
  computed from the state before and the callbacks).
* Retiring a lane calls `release` once for the publisher and once a lease (`src/bridge/core/Lane.cpp:231-236`) without
  asking whether its mod is still there. A `release` that unloads its own mod is followed by the calls still due,
  into a mod that is gone: `LoaderRuns.ReleasedAfterGone`. For a mod without lanes and leases that agrees to go and
  only touches tables before it does, unloading leaves something behind if and only if releases into it are due
  (`LoaderOutcomes.QuietUnloadLeaksIff`).
* For any other mod nothing is left behind when no release into it was due, it registered nothing while it was
  purged, and nobody else used its name (`LoaderOutcomes.UnloadLeavesNothing`).
* A reload reads the manifests again without checking the dependencies they name.
  `ModControl.EditedManifestBreaksReload` is the example; `ModControl.LoaderMods.CmdReload` and
  `ModControl.LoaderMods.RunAll` say exactly which edits keep the loaded set safe, for one command and for any
  sequence of them.
* Header fields edited out of their bit range make the chain differ from the composition of its subscribers
  (`PacketHooks.ChainAgreesIffInRange`).
* Two write-backs by one listener are compared with the same snapshot, so the last one does not always win
  (`EventMerge.SecondCallWinsIff`).
* A lane provider's own count of references is right if and only if it gave both `retain` and `release`, or
  nothing called for the missing one so far: `LoaderState.RefsRightIff`;
  `LoaderOutcomes.BalanceNeedsBothCallbacks` is a run that decides it for every descriptor.

## Model

| member | source | states |
|---|---|---|
| PlotGeometry.PackedKeysRoundTrip | src/more_dimensions/plot/PlotConfine.cpp:69-81 | Packing two coordinates into a key and unpacking are inverse in both directions, over all 32-bit coordinates and all keys |
| PlotGeometry.KeyInjective | src/more_dimensions/plot/PlotConfine.cpp:69-81 | Different plots have different keys |
| PlotGeometry.FloorDivision | src/more_dimensions/plot/PlotConfine.cpp:123-134 | The two helpers over truncating C++ operators are floor division and its non-negative remainder |
| PlotGeometry.ConnectedBack | src/more_dimensions/plot/PlotConfine.cpp:159-176 | Being merged is symmetric although a claim is one-sided, also across the coordinate wrap |
| PlotGeometry.LinkedSameComponent | src/more_dimensions/plot/PlotConfine.cpp:173-190 | Linked plots have one and the same group |
| PlotGeometry.ClosedIsComponent | src/more_dimensions/plot/PlotConfine.cpp:222-248 | A set of linked plots that is closed under merging is the whole group: why the search may stop |
| PlotGeometry.RootsAgreeIffLinked | src/more_dimensions/plot/PlotConfine.cpp:411-415 | Two plots get one known root if and only if they are linked and their group has at most 4096 plots |
| PlotGeometry.RootIsFirst | src/more_dimensions/plot/PlotConfine.cpp:178-190 | A known root is the westernmost plot linked to its members, and the northernmost of those |
| PlotGeometry.EntryMerges | src/more_dimensions/plot/PlotConfine.cpp:136-176 | The low bits of one entry merge a plot with its north, east, south and west neighbour, in that order, and with nobody else |
| PlotGeometry.OwnedColumnJoinsItsBorders | src/more_dimensions/plot/PlotConfine.cpp:262-301 | The owner of a column, seams and junctions included, is linked to every plot the column borders |
| PlotGeometry.OwnedIffAllBordersMerged | src/more_dimensions/plot/PlotConfine.cpp:262-301 | A column is owned if and only if any two neighbours among the plots it borders are merged |
| PlotGeometry.OwnerIsOfTheCell | src/more_dimensions/plot/PlotConfine.cpp:262-301 | An owned column, on a seam or a junction too, belongs to the plot of its cell, which is the one west and north of the road |
| DimGrids.DimGrid.LookAround | src/more_dimensions/plot/PlotConfine.cpp:226-247 | One step of the search: the four neighbours are collected, or the group is larger than the limit |
| DimGrids.DimGrid.SearchGroup | src/more_dimensions/plot/PlotConfine.cpp:217-248 | The search finds the group's root for every plot it collected, or that the group of every plot seen has more than 4096 plots |
| DimGrids.DimGrid.GroupRootLocked | src/more_dimensions/plot/PlotConfine.cpp:191-255 | For every history of earlier queries: the least plot of the true group when it has at most 4096 plots, and unknown exactly otherwise |
| DimGrids.DimGrid.SameAreaLocked | src/more_dimensions/plot/PlotConfine.cpp:399-416 | The answer is the meaning of "same area", whatever the memo and the oversized set hold |
| DimGrids.DimGrid.SetGeometry | src/more_dimensions/plot/PlotConfine.cpp:319-331 | New geometry keeps the merge table and restores the memo invariant |
| DimGrids.DimGrid.SetMerges | src/more_dimensions/plot/PlotConfine.cpp:359-371 | The new table claims exactly what some entry claims, and the memo invariant holds again |
| DimGrids.WholeGroupRoot | src/more_dimensions/plot/PlotConfine.cpp:250-254 | A search that ran out of pending plots has found the group, and its best plot is every member's root |
| DimGrids.TooManyMembers | src/more_dimensions/plot/PlotConfine.cpp:231-243 | Everything seen when the limit is hit belongs to a group that is too large |
| PlotArea.SameAreaEquivalence | src/more_dimensions/plot/PlotConfine.cpp:393-416 | Being in the same area is reflexive, symmetric and transitive, for every grid and table, oversized groups included |
| PlotArea.RectangleLinked | src/more_dimensions/plot/PlotConfine.cpp:173-176 | All plots of a fully merged rectangle are linked to its corner |
| PlotArea.BoxColumnOwned | src/more_dimensions/plot/PlotConfine.cpp:262-301 | Every column of the bounding box of a fully merged rectangle is owned by one of its plots |
| PlotArea.MergedRectangleIsOneArea | src/more_dimensions/plot/PlotConfine.cpp:262-301 | All columns of that box, roads included, are one area when the group has at most 4096 plots |
| PlotConfine.GridTable.SetPlotGrid | src/more_dimensions/plot/PlotConfine.cpp:306-332 | Clamps the sizes, registers or updates the grid and keeps its merges; a size of zero or less unregisters it |
| PlotConfine.GridTable.ClearPlotGrid | src/more_dimensions/plot/PlotConfine.cpp:334-341 | Exactly one dimension loses its grid |
| PlotConfine.GridTable.SetPlotMerges | src/more_dimensions/plot/PlotConfine.cpp:343-371 | Only one dimension's merges change, to what the entries claim; without a grid they are ignored |
| PlotConfine.GridTable.OwningPlotOf | src/more_dimensions/plot/PlotConfine.cpp:381-391 | The owner on the registered grid, none without a grid |
| PlotConfine.GridTable.InSameArea | src/more_dimensions/plot/PlotConfine.cpp:393-416 | The meaning of "same area" on the registered grid; without a grid everything is |
| PlotConfine.ActorMove | src/more_dimensions/plot/PlotConfine.cpp:447-533 | Stopped if and only if the entity can be read, is neither player nor ridden nor removed, its dimension has a grid and forbids crossing, and the two columns are not in one area; then only the vertical part of the move is left, otherwise all of it |
| PlotConfine.ConfinedEntityStays | src/more_dimensions/plot/PlotConfine.cpp:447-533 | After any sequence of moves a confined entity is in the area it started in |
| PlotConfine.CheckAttachedBlocks | src/more_dimensions/dim/DimensionRules.cpp:438-490 | A push is allowed exactly when the engine and the rules allow it and, where crossing is forbidden, every block starts and lands in the piston's area |
| PlotConfine.AttachedInside | src/more_dimensions/dim/DimensionRules.cpp:472-482 | The loop with early exit decides that for all attached blocks |
| PlotConfine.AcceptedPushKeepsAreas | src/more_dimensions/dim/DimensionRules.cpp:464-489 | No block moved by an accepted push changes its area |
| DimensionRules.SetKeepsCounts | src/more_dimensions/dim/DimensionRules.cpp:100-106 | Setting a rule keeps every dimension's count equal to the number of rules set for it |
| DimensionRules.SetThenRead | src/more_dimensions/dim/DimensionRules.cpp:100-115 | A rule that was set reads as it was set, and no other rule of any dimension changes |
| DimensionRules.ClearRemoves | src/more_dimensions/dim/DimensionRules.cpp:117-122 | Clearing forgets rules 0 to 12 of that dimension and no other |
| DimensionRules.ClearKeepsCountIff | src/more_dimensions/dim/DimensionRules.cpp:117-122 | Clearing leaves the count exact if and only if no rule outside 0 to 12 was set |
| DimensionRules.ClearForgetsUnknownRule | src/more_dimensions/dim/DimensionRules.cpp:92-122 | The stale case: a rule that is set in a dimension counted as having none |
| DimensionRules.RuleStore.AnyRuleFor | src/more_dimensions/dim/DimensionRules.cpp:92-97 | While the count is exact, "managed" means that some rule is set |
| DimensionRules.RuleStore.SetDimensionRule | src/more_dimensions/dim/DimensionRules.cpp:100-106 | The table after setting one rule |
| DimensionRules.RuleStore.GetDimensionRule | src/more_dimensions/dim/DimensionRules.cpp:108-115 | The explicitly set value, or none |
| DimensionRules.RuleStore.ClearDimensionRules | src/more_dimensions/dim/DimensionRules.cpp:117-122 | The table after clearing one dimension |
| Dependents.ReverseEdges | src/core/ModControl.cpp:292-300 | The reversed table lists a dependent if and only if it lists the dependency |
| Dependents.Affected | src/core/ModControl.cpp:302-316 | The breadth-first closure is the set of transitive dependents of the target, without the target |
| Dependents.InDegrees | src/core/ModControl.cpp:321-329 | Each in-degree counts the dependency entries inside the affected set, duplicates included |
| Dependents.TakeAway | src/core/ModControl.cpp:340-347 | Emitting a mod lowers the degrees by its entries and makes exactly the mods ready whose degree reaches zero |
| Dependents.KahnOrder | src/core/ModControl.cpp:318-358 | Every affected mod once; dependents first exactly when there is no cycle among them |
| Dependents.SourceExists | src/core/ModControl.cpp:338-348 | Without cycles some remaining mod has no remaining dependent |
| Dependents.OrderedIsAcyclic | src/core/ModControl.cpp:287-359 | An order with dependents first exists only without cycles |
| Dependents.DependentsOf | src/core/ModControl.cpp:287-359 | Each transitive dependent exactly once and nothing else; dependents precede what they need if and only if they form no cycle |
| ModControl.AddKeepsSafeIff | src/core/ModControl.cpp:519-549 | Bringing a mod up keeps the loaded set dependency-closed and acyclic if and only if all it depends on is loaded |
| ModControl.RemoveKeepsSafeIff | src/core/ModControl.cpp:579-602 | Taking a mod down keeps it so if and only if no loaded mod depends on it |
| ModControl.EditedManifestBreaksReload | src/core/ModControl.cpp:708-726 | A manifest edited between unload and reload can break closure |
| ModControl.NobodyNeedsNext | src/core/ModControl.cpp:623-640 | In the unload order nobody loaded needs the next mod when its turn comes |
| ModControl.NextFindsItsDependencies | src/core/ModControl.cpp:708-726 | Coming back in the opposite order, a mod finds all its dependencies loaded |
| ModControl.SameDependents | src/core/ModControl.cpp:164-198 | Listing entries twice changes neither who depends on whom nor the order |
| ModControl.LoaderMods.LoadedDependencyMap | src/core/ModControl.cpp:164-198 | All loaded mods of both managers with all their dependencies |
| ModControl.LoaderMods.ControlLoad | src/core/RustModManager.cpp:194-212 | Load then enable with rollback, in each outcome; from a safe past every state stays safe if and only if the mod does not come up or all its dependencies are loaded |
| ModControl.LoaderMods.ControlUnload | src/core/RustModManager.cpp:214-231 | The mod goes or stays; safe when nobody depends on it |
| ModControl.LoaderMods.CmdLoad | src/core/ModControl.cpp:494-566 | Exactly when it succeeds; the mod is added if and only if it comes up, and otherwise nothing changes unless a load that fails to enable cannot be taken back; every intermediate state safe |
| ModControl.LoaderMods.PlanUnload | src/core/ModControl.cpp:579-626 | On a safe state: target and dependents in an order in which nothing is pulled from under a dependent |
| ModControl.LoaderMods.DoUnload | src/core/ModControl.cpp:569-642 | Exactly when it succeeds, exactly what is unloaded, and every intermediate state safe, part-way failure included |
| ModControl.LoaderMods.UnloadInOrder | src/core/ModControl.cpp:628-641 | Unloads a prefix of the order, all of it unless a mod refuses |
| ModControl.LoaderMods.ReloadAllowed | src/core/ModControl.cpp:664-703 | Exactly when every mod to be reloaded is marked reload-safe |
| ModControl.LoaderMods.CmdReload | src/core/ModControl.cpp:655-743 | Exactly when it succeeds; only marked mods are touched; from a safe past every state is safe if and only if each mod brought up names, in its manifest as it is by now, only mods loaded at its turn; unedited manifests give the same state back |
| ModControl.LoaderMods.BringBack | src/core/ModControl.cpp:708-736 | The reload loop: exactly when all come back, what is missing otherwise, and safe exactly when each mod brought up finds what it names |
| ModControl.UneditedReturns | src/core/ModControl.cpp:708-736 | Manifests that nobody edited meet that condition |
| ModControl.LoaderMods.RunAll | src/core/ModControl.cpp:494-743 | Any sequence of load, unload and reload commands, each in a world of its own: all states are safe if and only if every reload brought back only mods that found what they name |
| ModControl.LoaderMods.Run | src/core/ModControl.cpp:494-743 | One command of any kind: what it does to the loaded mods in each case, and exactly when every state on the way is safe |
| Tickets.TicketTable.Register | src/bridge/core/LogScheduler.cpp:104-110 | A ticket number never used before |
| Tickets.TicketTable.Take | src/bridge/core/LogScheduler.cpp:115-124 | The ticket is taken out, so it fires at most once |
| Tickets.TicketTable.Cancel | src/bridge/core/LogScheduler.cpp:201-213 | Only the owner cancels, and only that ticket |
| Tickets.TicketTable.PendingCount | src/bridge/core/LogScheduler.cpp:215-228 | The number of the mod's pending tickets |
| Tickets.TicketTable.OnRustModGone | src/bridge/core/LogScheduler.cpp:230-258 | Drops and counts every ticket of the mod and no other |
| Services.ServiceTable.Register | src/bridge/core/Services.cpp:131-171 | Refused exactly for a bad or taken name; names and registrations stay in bijection |
| Services.ServiceTable.Unregister | src/bridge/core/Services.cpp:173-189 | Only the owner, only that registration |
| Services.ServiceTable.Lookup | src/bridge/core/Services.cpp:216-223 | The provider of a name, none exactly when there is none |
| Services.ServiceTable.OnRustModGone | src/bridge/core/Services.cpp:300-316 | The mod's services go, all others stay |
| Bus.RemoveIdKeepsOrder | src/bridge/core/Bus.cpp:252-255 | Removing an id from a topic's list removes just that id and keeps the order |
| Bus.IndexGrows | src/bridge/core/Bus.cpp:232-236 | Appending the newest id keeps the topic index exact |
| Bus.BusTable.Subscribe | src/bridge/core/Bus.cpp:210-238 | A fresh id, and the topic index stays exact |
| Bus.BusTable.Unsubscribe | src/bridge/core/Bus.cpp:240-261 | Only the owner, only that subscription; the index stays exact |
| Bus.BusTable.IdsFor | src/bridge/core/Bus.cpp:114-130 | Everybody on the topic but the publisher, in increasing id order |
| Bus.BusTable.SubscriberCount | src/bridge/core/Bus.cpp:280-289 | The number of subscriptions to the topic |
| Bus.BusTable.OnRustModGone | src/bridge/core/Bus.cpp:291-311 | The mod's subscriptions go, all others stay; the index stays exact |
| LaneBooks.LeaseCountExact | src/bridge/core/Lane.cpp:129-152 | A lane's counter is the number of leases on it in the table |
| LaneBooks.PublishKeeps | src/bridge/core/Lane.cpp:297-323 | Publishing keeps names, leases, counters and alive cells consistent |
| LaneBooks.AcquireKeeps | src/bridge/core/Lane.cpp:412-414 | So does taking a lease |
| LaneBooks.ReleaseKeeps | src/bridge/core/Lane.cpp:444-461 | So does giving one back; its lane is there and its counter is positive |
| LaneBooks.RetireKeeps | src/bridge/core/Lane.cpp:198-229 | So does retiring a lane with its leases |
| Lanes.LaneTable.Publish | src/bridge/core/Lane.cpp:248-330 | Refused exactly for a malformed descriptor, fingerprint 0, or a bad or taken name |
| Lanes.LaneTable.Acquire | src/bridge/core/Lane.cpp:370-428 | A lease exactly when provider and fingerprint are right, and then one entry and one count more; nothing changes otherwise |
| Lanes.LaneTable.Drop | src/bridge/core/Lane.cpp:446-461 | One lease goes and its lane counts one less |
| Lanes.LaneTable.Retire | src/bridge/core/Lane.cpp:198-229 | The lane, its name and exactly its leases go, and the leases are counted |
| Lanes.LaneTable.CollectLeases | src/bridge/core/Lane.cpp:212-223 | Erases the leases of one lane and counts them |
| Lanes.LaneTable.BusyName | src/bridge/core/Lane.cpp:503-526 | A name exactly when some lane of the mod is being called |
| LoaderState.MayGoIff | src/core/RustModManager.cpp:181-189 | A mod can go leaving the tables clean if and only if nothing in them, and no release still due, is its |
| LoaderState.GoneIsNeverEntered | src/core/RustModManager.cpp:181-189 | From the end of a mod on no entry is into it, whoever lives at its address and however deep the two are nested in other callbacks, if no mod registered anything while it was purged and none went unasked, or at least before the first mod that left something behind |
| LoaderState.RefsConserved | src/bridge/core/Lane.cpp:191-245 | Over the entries on record: retains minus releases plus the publisher's own reference is one plus the leases in the table while a lane is published, then what a retirement under way still owes, then zero; never negative |
| LoaderState.RefsRightIff | src/bridge/core/Lane.cpp:191-245 | For every descriptor, exactly when the provider's own count is right |
| LoaderState.GoodMeans | src/bridge/core/Lane.cpp:184-190 | What holds at every moment gives the claims about whole runs; something is left behind only after a mod registered things while it was purged, or went unasked |
| LoaderSteps.GrantStep | src/bridge/core/Lane.cpp:412-431 | Taking a lease and entering `retain` keeps all that holds at every moment, the account of calls included |
| LoaderSteps.GiveBackStep | src/bridge/core/Lane.cpp:446-462 | So does giving one back and entering `release` |
| LoaderSteps.TakeDownStep | src/bridge/core/Lane.cpp:198-229 | So does taking a lane down, with one release due for the publisher and one a lease |
| LoaderSteps.DueStep | src/bridge/core/Lane.cpp:231-236 | So does making one of them |
| LoaderSteps.DeathStep | src/core/RustModManager.cpp:184-188 | So does the end of a mod, unless something of it is left without a reason on record; the tables stay clean if and only if nothing of it is left |
| LoaderSteps.EnteringIsSafe | src/bridge/core/Bus.cpp:152-168 | Entering a living mod keeps the record of all entries safe |
| LoaderDispatch.OneMoreTurn | src/bridge/core/Bus.cpp:191-206 | What the dispatch loop reports after one more subscriber |
| LoaderDispatch.DispatchIsASnapshot | src/bridge/core/Bus.cpp:114-168 | A subscription gone by some turn stays silent, and one that runs was there when the dispatch began |
| LoaderDispatch.DeliveredCounts | src/bridge/core/Bus.cpp:189-206 | The number reported as delivered is the number of turns at which a callback ran |
| LoaderReach.PublishReaches | src/bridge/core/Bus.cpp:139-207 | Publishing inside a callback enters the oldest enabled subscriber first, and does nothing at all if and only if no enabled mod but the publisher has subscribed |
| LoaderReach.CallReaches | src/bridge/core/Services.cpp:191-272 | A service call inside a callback enters the provider, and does nothing at all if and only if no other living mod provides the name |
| LoaderReach.TooDeep | src/bridge/core/Bus.cpp:178-183 | At depth 8 a publication or a call does nothing |
| LoaderReach.AcquireReaches | src/bridge/core/Lane.cpp:348-435 | Taking a lease does nothing if and only if no other living mod lends that name under that fingerprint; a `retain` is the next entry |
| LoaderReach.ReleaseReaches | src/bridge/core/Lane.cpp:437-465 | Giving a lease back does nothing if and only if the mod does not hold it; a `release` is the next entry |
| LoaderReach.WithdrawReaches | src/bridge/core/Lane.cpp:332-346 | Unpublishing does nothing if and only if the lane is not the mod's; otherwise the lane is gone, and a `release` is the next entry |
| LoaderReach.LoadReaches | src/core/RustModManager.cpp:33-154 | Loading does nothing if and only if the place is taken or the library does not open; otherwise the entry point is the next entry, a failed load leaves no mod, and one that may displace is listed |
| LoaderReach.UnloadReaches | src/core/RustModManager.cpp:156-190 | Unloading a listed mod none of whose lanes can be in use enters `on_unload` next; success means that the library is freed and nobody bears the name |
| LoaderReach.SwitchedHears | src/bridge/core/Bus.cpp:152-164 | Once a mod has been enabled all its subscriptions are heard, and once it has been disabled none |
| LoaderReach.SwitchObeyed | src/core/RustModManager.cpp:137-150 | A mod told to enable or disable is entered next and changes its phase if and only if it agrees, when its callback only touches tables |
| LoaderReach.OrdersObeyed | src/core/RustModManager.cpp:137-150 | The same for the order as one mod gives it for another out of a callback |
| LoaderReach.StartUndone | src/core/RustModManager.cpp:204-212 | A mod that was loaded and refuses to be enabled is taken down again |
| LoaderReach.TakeDownAsksFirst | src/core/RustModManager.cpp:214-231 | An enabled mod is asked to be disabled before anything else, and when it refuses it stays enabled |
| LoaderReach.LoadCommandReaches | src/core/ModControl.cpp:494-549 | The load command does nothing if and only if the name is in use, the place is taken or nothing opens |
| LoaderPurge.PurgedInOrder | src/bridge/core/ApiTable.cpp:292-322 | In the order of the purge, what comes later brings nothing of a dying mod back unless that mod registers something itself; the other mods keep what they do not withdraw, over all steps of the purge |
| LoaderPurge.LanesPurgedInOrder | src/bridge/core/Lane.cpp:528-574 | First the mod's leases, then its lanes: exactly the leases that are the mod's, or on a lane of it, go, and the others are unchanged |
| LoaderKeeping.ProgramIsCalm | src/bridge/core/ApiTable.cpp:240-271 | A callback on the tables takes nothing from anybody: each mod keeps every registration it does not withdraw itself, lanes stay published and leases taken |
| LoaderLifecycle.StillThere | src/core/RustModManager.cpp:152-190 | While no entry point or `on_unload` is entered under its name, a listed mod stays the one listed |
| LoaderPrograms.KeysThrough | src/bridge/core/ApiTable.cpp:240-271 | After a program on the tables a mod has exactly what it had and did not withdraw, and what it got registered and did not withdraw later |
| LoaderPrograms.KeysLeft | src/bridge/core/ApiTable.cpp:240-271 | After a program on the tables a mod that had nothing has exactly what it got registered and did not withdraw later |
| LoaderPrograms.NothingLeftIff | src/bridge/core/ApiTable.cpp:240-271 | Such a program leaves nothing behind if and only if it withdraws all it registered |
| LoaderCalm.OneMoreGivenBack | src/bridge/core/Lane.cpp:534-561 | The mod's leases are given back one by one, each looked up again: after each, exactly those whose turn has not come are left, and nobody else's lease has gone |
| LoaderCalm.OneMoreRetired | src/bridge/core/Lane.cpp:563-574 | The mod's lanes are retired one by one: after each, exactly the leases on its lanes whose turn has come are gone, and nobody else's lane |
| LoaderCalm.RetireIsCalm | src/bridge/core/Lane.cpp:191-245 | The releases that retiring a lane makes, when they only touch tables, take nothing from anybody |
| LoaderEffects.PaidInFull | src/bridge/core/Lane.cpp:231-236 | When retiring is over its `release` was entered exactly once for the publisher and once a lease, whatever happened in between |
| LoaderOutcomes.BalanceNeedsBothCallbacks | src/bridge/core/Lane.cpp:191-245 | Publish, acquire, release: the provider's count is right all the way if and only if it gave both callbacks |
| LoaderOutcomes.FailedLoadLeaksIff | src/core/RustModManager.cpp:63-118 | A load that fails after an entry point on the tables leaks if and only if some accepted registration was not withdrawn by it; the tables then name a mod that is gone |
| LoaderOutcomes.FailedLoadIsClean | src/core/RustModManager.cpp:63-118 | An entry point that registers nothing leaves nothing behind when its load fails |
| LoaderOutcomes.LoadedAlone | src/core/RustModManager.cpp:135-153 | A mod that was loaded with nobody else using its name is listed under it, as a new mod |
| LoaderOutcomes.EnabledIffNotUnloaded | src/core/RustModManager.cpp:137-143 | An `on_enable` that ends by unloading its own mod: the mod is there, enabled, if and only if its `on_unload` refused |
| LoaderOutcomes.UnloadLeavesNothing | src/core/RustModManager.cpp:177-189 | Whatever the callbacks do: nothing of the mod is left when its tables have let go, if no release into it was due, it registered nothing while it was purged and nobody else used its name |
| LoaderOutcomes.QuietUnloadLeaksIff | src/core/RustModManager.cpp:156-190 | Unloading a mod that has no lanes and leases, agrees and only touches tables leaves something behind if and only if releases into it were due when it was asked |
| LoaderOutcomes.ReloadedTo | src/core/ModControl.cpp:708-736 | Unload, load and enable of a successor, one after the other: it bears the name, and has exactly what its entry point and its `on_enable` got registered and did not withdraw |
| LoaderOutcomes.ReloadedUnloadLeaksIff | src/core/RustModManager.cpp:156-190 | An `on_unload` that works on the tables and ends by reloading its own mod: something is left behind if and only if releases into the mod were due, or the successor gets something registered that it does not withdraw |
| LoaderRuns.FailedLoadLeaks | src/core/RustModManager.cpp:64-68 | The run in which a failed load leaves a subscription of a dead mod |
| LoaderRuns.EnabledThoughGone | src/core/RustModManager.cpp:137-143 | The run in which enabling succeeds and there is no such mod |
| LoaderRuns.SuccessorErased | src/core/RustModManager.cpp:177-189 | The run in which unloading drops another mod of the same name and leaves its entries |
| LoaderRuns.ReleasedAfterGone | src/bridge/core/Lane.cpp:231-236 | The run in which a `release` unloads its own mod, and the next one is entered all the same |
| Loaders.Loader.RunCallback | src/bridge/core/Bus.cpp:166-167 | Any finite program of a mod keeps all tables valid, terminates, and runs operation by operation while its mod is there |
| Loaders.Loader.Perform | src/bridge/core/ApiTable.cpp:240-271 | One call of a mod through the function table: what it does to the whole state, refused calls included, and with everything that the callbacks it sets off do in turn |
| Loaders.Loader.Publish | src/bridge/core/Bus.cpp:170-207 | Each subscriber of the topic but the publisher once, in increasing id order; it runs if and only if it is present and enabled at its turn; the veto is the OR and the count the number over those that ran |
| Loaders.Loader.FireAll | src/bridge/core/Bus.cpp:191-206 | The dispatch loop without short-circuit, turn by turn |
| Loaders.Loader.FireOne | src/bridge/core/Bus.cpp:139-168 | One turn: nothing at all, or one entry into the subscriber, which runs its program operation by operation |
| Loaders.Loader.CallService | src/bridge/core/Services.cpp:191-272 | The exact status in each case, at most 8 deep; only the provider of the name is entered, and what it does is told operation by operation |
| Loaders.Loader.RunTask | src/bridge/core/LogScheduler.cpp:115-129 | Fires if and only if pending and its mod alive and enabled; never pending again |
| Loaders.Loader.CompleteForm | src/bridge/actors/Forms.cpp:101-116 | The same for form tickets |
| Loaders.Loader.SendForm | src/bridge/actors/Forms.cpp:599-636 | A ticket exactly when the form was shown |
| Loaders.Loader.AcquireLane | src/bridge/core/Lane.cpp:348-435 | A lease is granted exactly when a living provider of another mod publishes the name and fingerprint; then its `retain` is entered once, if given, and may do anything |
| Loaders.Loader.ReleaseLane | src/bridge/core/Lane.cpp:437-465 | Only the holder, at most once: one `release`, if given, into the lane's provider; a refused call enters nobody |
| Loaders.Loader.UnpublishLane | src/bridge/core/Lane.cpp:332-346 | Only the owner; the lane and exactly its leases go, and `release` is entered exactly once more than there were leases; a refused call changes nothing |
| Loaders.Loader.RetireLane | src/bridge/core/Lane.cpp:191-245 | The same for a lane that is taken down by the loader, with re-entrant releases |
| Loaders.Loader.Load | src/core/RustModManager.cpp:33-154 | Exactly when it succeeds; the run of its entry point; what is listed and what goes, and that it leaks exactly when something of what goes is left; for an entry point on the tables the outcome as a function |
| Loaders.Loader.Enable | src/core/RustModManager.cpp:137-143 | Succeeds exactly when the mod was disabled and agrees; it is enabled then if and only if it is still there, and it is when nobody loaded or unloaded under its name |
| Loaders.Loader.Disable | src/core/RustModManager.cpp:144-150 | The same for disabling |
| Loaders.Loader.Unload | src/core/RustModManager.cpp:156-190 | Busy exactly when a lane is in use, and then nothing happens; refused exactly when the mod says so; otherwise every table lets go of it while the other mods keep theirs, and whoever bears its name goes, unless the library stays |
| Loaders.Loader.Purge | src/bridge/core/ApiTable.cpp:292-322 | No table mentions the mod afterwards unless it registered something meanwhile; a mod without lanes and leases enters nobody and takes only its own entries away; when the callbacks it does enter only touch tables, exactly the leases that have to do with the mod go, and the others keep what they do not withdraw |
| Loaders.Loader.PurgeLanes | src/bridge/core/Lane.cpp:528-574 | Leases, then lanes, each looked up again at its turn; each release runs as a callback, at a time when no task, topic or service leads into the mod any more; other mods' mutual leases and lanes are unchanged when those callbacks only touch tables |
| Loaders.Loader.ControlLoad | src/core/RustModManager.cpp:194-212 | Load, enable, and unload again when that fails, each step with the callbacks it enters; success means a running mod when nobody else used its name |
| Loaders.Loader.ControlUnload | src/core/RustModManager.cpp:214-231 | An enabled mod is asked to be disabled first and stays if it refuses; then it is unloaded, each step with the callbacks it enters; success means that no mod of that name is listed |
| Loaders.Loader.Obey | src/core/ModControl.cpp:494-743 | A command ordered out of a callback: which mods it asks, in which order, what each of them does when asked, and what is loaded and enabled then |
| Loaders.Loader.React | src/bridge/core/LogScheduler.cpp:115-129 | Each event from outside enters exactly whom it concerns: a ticket's mod if it is there and enabled, an enabled mod the game calls, and those a console command asks |
| Loaders.Loader.Drive | src/core/RustModManager.cpp:156-190 | Any run, whatever the mods do, each event having the effect told of it: lane calls went into the lane's own provider and balance; and if no mod registers anything while it is purged and none goes unasked, every entry was into a mod alive then, none into a mod that had gone, and every table entry has a living owner. Without that proviso these hold up to the first mod that goes leaving something behind |
| PacketCodec.ReadUVarInt | src/bridge/net/PacketHooks.cpp:217-234 | The value in 32 bits and the position after it; none on truncation or more than five bytes |
| PacketCodec.WriteUVarInt | src/bridge/net/PacketHooks.cpp:236-244 | Appends the encoding of the value |
| PacketCodec.ReadStep | src/bridge/net/PacketHooks.cpp:221-233 | One round of the reading loop in 32-bit arithmetic |
| PacketCodec.ReadRound | src/bridge/net/PacketHooks.cpp:221-233 | What the round decides: the value is complete, the varint is too long, or reading goes on |
| PacketCodec.VarIntRoundTrip | src/bridge/net/PacketHooks.cpp:217-244 | Reading what was written gives the value and its exact length of 1 to 5 bytes, whatever follows |
| PacketCodec.VarIntBytes | src/bridge/net/PacketHooks.cpp:236-244 | Each byte carries the next seven bits of the value, lowest first, and all but the last have the high bit set |
| PacketCodec.DecodeHeader | src/bridge/net/PacketHooks.cpp:255-267 | The fields and size of the header, none when malformed |
| PacketCodec.EncodeHeader | src/bridge/net/PacketHooks.cpp:269-275 | Appends the encoded masked fields |
| PacketCodec.HeaderRoundTrip | src/bridge/net/PacketHooks.cpp:255-275 | Decoding what was encoded gives the masked fields, and the body starts right after |
| PacketCodec.HeaderBits | src/bridge/net/PacketHooks.cpp:255-275 | Ten bits of packet id, two of sender and two of target, from the lowest on; the fields of any word are in range and make up its low 14 bits |
| PacketHooks.SubscriberRules | src/bridge/net/PacketHooks.cpp:402-451 | One subscriber by the number it answers: swallowed, rewritten with its fields and body, or left as it is, also when it throws or edits without saying so |
| PacketHooks.FirstDropWins | src/bridge/net/PacketHooks.cpp:402-459 | A packet is swallowed if and only if some subscriber it reaches swallows it as the earlier ones rewrote it |
| PacketHooks.ChainIsFold | src/bridge/net/PacketHooks.cpp:379-459 | From any point of the chain, one pass equals one subscriber at a time over whole packets |
| PacketHooks.DispatchIsFold | src/bridge/net/PacketHooks.cpp:346-460 | Dispatch equals composing the subscribers over whole packets, when edits stay in range |
| PacketHooks.ChainAgreesIffInRange | src/bridge/net/PacketHooks.cpp:400-459 | After an edit the two agree, whatever follows, if and only if the fields fit their bits |
| PacketHooks.DispatchLaws | src/bridge/net/PacketHooks.cpp:346-377 | With the engine's packet id given: the subscribers are composed when the header has that id, and the packet passes untouched when it has another one, does not decode, or another dispatch is under way |
| PacketHooks.WithoutKeepsOthers | src/bridge/net/PacketHooks.cpp:715-729 | A mod's interceptors go, and no others |
| PacketHooks.PacketRegistry.RefreshGates | src/bridge/net/PacketHooks.cpp:138-150 | A gate is open exactly while somebody wants that direction |
| PacketHooks.PacketRegistry.Register | src/bridge/net/PacketHooks.cpp:640-657 | A new handle at the end of the order, refused for an empty mask |
| PacketHooks.PacketRegistry.Unregister | src/bridge/net/PacketHooks.cpp:659-677 | Only the owner's own interceptor |
| PacketHooks.PacketRegistry.OnRustModGone | src/bridge/net/PacketHooks.cpp:715-729 | What is left is all interceptors of others, in their order |
| PacketHooks.PacketRegistry.Dispatch | src/bridge/net/PacketHooks.cpp:346-460 | The loop with copy-on-write views computes the chain over the subscribers that were there when it began, whatever they do to the registry, be it that they unload one another: first DROP wins, edits of a PASS are discarded, all-PASS forwards the original; a packet of another id than expected, one that does not decode, and one met inside a dispatch pass; interceptors of mods that were neither called nor unloaded stay |
| PacketHooks.PacketRegistry.Send | src/bridge/net/PacketHooks.cpp:499-532 | What reaches the engine, gate or no gate: the composition of the subscribers when the header has the id the engine names, the packet itself when it has another one, does not decode or is sent inside a dispatch |
| PacketHooks.PacketRegistry.ReceivePacket | src/bridge/net/PacketHooks.cpp:540-576 | One call, nested in a dispatch or not, consumes the queue up to its first survivor and returns that; the callbacks may differ from packet to packet |
| PacketHooks.PacketRegistry.ReceiveAll | src/bridge/net/PacketHooks.cpp:540-576 | Called until the peer is dry, the hook delivers the fates of all queued packets in order, without the swallowed ones; nothing is stranded, whatever callbacks are there for each packet |
| PacketHooks.OneMorePulled | src/bridge/net/PacketHooks.cpp:556-575 | One call adds the next survivor to what has been delivered, or nothing when none is left |
| PacketHooks.PumpDeliversFilterMap | src/bridge/net/PacketHooks.cpp:540-576 | What is so delivered is the order-preserving filter-map of the queue under the composition of the subscribers |
| PacketHooks.TidyScriptIsTidy | src/bridge/net/PacketHooks.cpp:400-459 | Callbacks that keep edits in range satisfy what the two previous statements ask, at every moment |
| PlotGenerator.Clamped | src/more_dimensions/include/plot/PlotLayout.h:67-83 | Every layout becomes one whose indices fit the buffer, and a safe one is left alone |
| PlotGenerator.ClampedIsNearest | src/more_dimensions/include/plot/PlotLayout.h:67-83 | No safe layout has a plot size, road width or floor nearer to the given ones; a border too wide for its plot is left out |
| PlotGenerator.RoadsAgree | src/more_dimensions/include/plot/PlotLayout.h:155-170 | The generator puts road exactly where the confinement geometry sees road |
| PlotGenerator.CellLaw | src/more_dimensions/include/plot/PlotLayout.h:140-170 | Every block by the two offsets in its cell and its height: the border on the floor of the plot within its width of any of the four sides, road where an offset is past the plot, floor, fill, bedrock and air |
| PlotGenerator.Generator.PureFollowsLayout | src/more_dimensions/plot/PlotGenerator.cpp:140-187 | So do all blocks of a buffer that holds the pure function |
| PlotGenerator.BedrockIffFloorAbove | src/more_dimensions/plot/PlotGenerator.cpp:122-133 | There is bedrock at its height if and only if the floor is above it |
| PlotGenerator.BufferIndexBijection | src/more_dimensions/plot/PlotGenerator.cpp:36-39 | Cells and buffer indices correspond one to one |
| PlotGenerator.FillLayer | src/more_dimensions/plot/PlotGenerator.cpp:42-45 | Exactly the cells of that height change |
| PlotGenerator.FillRange | src/more_dimensions/plot/PlotGenerator.cpp:47-50 | Exactly the cells of those heights change |
| PlotGenerator.Generator.RefillStatic | src/more_dimensions/plot/PlotGenerator.cpp:122-138 | All cells outside the two changing layers are what the layout says |
| PlotGenerator.Generator.AcquireBuffer | src/more_dimensions/plot/PlotGenerator.cpp:105-119 | Whoever used the buffer last, its static part is now this generator's |
| PlotGenerator.Generator.LoadChunk | src/more_dimensions/plot/PlotGenerator.cpp:140-187 | After any earlier chunks of any generators every cell is the pure function of world column and height, and so follows the layout: border along all four sides of each plot, road, floor, fill, bedrock, air |
| EventMerge.Merge | src/bridge/runtime/Events.cpp:350-389 | For each field: the edit's value, deletions included, where it differs from the snapshot's, and the present value everywhere else |
| EventMerge.WriteBack | src/bridge/runtime/Events.cpp:350-389 | The two loops compute the merge, stated field by field against the data before; with a snapshot of the present data that is the edit itself; an unreadable snapshot replaces everything, an unreadable edit nothing |
| EventMerge.EveryFieldHasAWriter | src/bridge/runtime/Events.cpp:350-389 | After any listeners a field holds what some listener that changed it wrote, or its old value |
| EventMerge.EveryDisjointEditSurvives | src/bridge/runtime/Events.cpp:358-372 | When no two edits differ from the snapshot in one field, every one of them survives |
| EventMerge.MergeOrderIrrelevant | src/bridge/runtime/Events.cpp:358-372 | And the result is the same in every order |
| EventMerge.SecondCallWinsIff | src/bridge/runtime/Events.cpp:350-389 | Exactly when the last of two write-backs by one listener decides alone |
| Sliders.NormalizeSlider | src/bridge/actors/Forms.cpp:288-322 | The step-by-step changes compute the normal form |
| Sliders.RangedFits | src/bridge/actors/Forms.cpp:290-307 | The span is a whole number of steps, and the ordered maximum rises by at most 1e-9 of a step |
| Sliders.SnapsOntoStep | src/bridge/actors/Forms.cpp:309-315 | The default lands on a step point inside the range |
| Sliders.SnapsToNearest | src/bridge/actors/Forms.cpp:309-315 | No step point is nearer to the clamped default than the one it is moved to |
| Sliders.NormalizedIsAccepted | src/bridge/actors/Forms.cpp:288-322 | min <= default <= max, the span a whole number of steps and the default on one of them |
| Sliders.AcceptedIsFixed | src/bridge/actors/Forms.cpp:288-322 | A slider that the client accepts is not changed |
| Sliders.NormalizeIdempotent | src/bridge/actors/Forms.cpp:288-322 | Normalising twice is normalising once |

## Left out

- Threads, mutexes and atomics: every operation is one step of the server thread, where the source documents that it runs.
- Detours, symbol resolution, the engine behind them, loggers, files, manifests and JSON, SNBT text: what they answer is a parameter.
- Hash tables are maps; loops over them run in an arbitrary order, and everything is proved for every order.
- The number of grids kept beside the grid table is the size of that table here.
- Plot coordinates wrap at 32 bits where the source adds 1 without a check.
- The sort of mods that become ready together (a tie-break): the order is proved for every choice.
- PlotConfine.ActorMove: positions and displacements are real numbers whose block coordinates fit 32 bits; rounding and NaN are not modelled, nor entities that the engine moves by other means.
- Sliders.NormalizeSlider: real arithmetic, no rounding and no NaN.
- Loaders.Loader.Drive: callbacks made by commands and lanes nest to any finite depth (`budget`); one more is not made, where the source would run out of stack. A program stops when its mod has gone, where the source would return into code that may be unmapped, and a mod's address may be used again from then on.
- Loaders.Loader.Load: whether the mod manager replaces a mod of the same name or keeps the old one is not decided in this repository; it is a parameter, and so are the answers of the system to opening and freeing a library.
- Loaders.Loader.Unload: commands, key-value stores, hook events, packet interceptors, money listeners and client tables, which the same sequence purges, are not in this run model.
- Loaders.Loader.Obey: the counters of calls inside a lane are kept in the table and not in the state, so an unloading ordered inside a callback may be refused as busy whenever the mod has a lane; Loaders.Loader.Unload says exactly when.
- LoaderReach.SwitchObeyed: the callback only touches tables, since any other one may unload the mod meanwhile; the general statement is Loaders.Loader.Enable.
- LoaderReach.StartUndone: the two callbacks only touch tables, for the same reason.
- LoaderOutcomes.UnloadLeavesNothing: says nothing about what is left when one of its conditions fails, since the callbacks inside may do anything; the exact conditions are those of LoaderOutcomes.QuietUnloadLeaksIff and LoaderOutcomes.ReloadedUnloadLeaksIff for programs on the tables.
- Loaders.Loader.AcquireLane: the calls consumers make through a lane appear only as its busy counter.
- Tasks and money listeners without an owner, which nothing can purge.
- ModControl.LoaderMods.DoUnload: mods that vanish by other means while a command runs, which the source skips; the loader under re-entrancy is `Loader`.
- ModControl.LoaderMods.UnloadInOrder: the same.
- ModControl.LoaderMods.CmdReload: the image-swap diagnosis and the messages.
- PlotGenerator.Generator.LoadChunk: generators have an identity of their own, so the reuse of a freed generator's address as buffer owner is not modelled; biomes, height maps and the chunk state hand-over are not part of this model.
- PacketHooks.PacketRegistry.Dispatch: a callback registers and unregisters for its own mod, and may unload any mod; that a mod unloaded during the chain is still called, being held by the snapshot, is followed, but not what its callback then finds of itself; the address cache and connection hooks are not part of this model.
- PacketCodec.ReadUVarInt: the source's `|=` of a shifted group is an addition here, since the two have no bit in common.
- Engine-facing getters and setters, the layout of the function table and custom dimension registration: flat wrappers, or decided by the engine.
