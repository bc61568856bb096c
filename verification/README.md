# Adjutant core: a verified model

Adjutant is a server whose features are plugins. This project models the parts of it that other
parts rely on, and proves what they promise over every input, every interleaving and every run.

| files | what they model |
|---|---|
| `ScopeGraph`, `ScopeHierarchy`, `GrantExpansion` | the declared scope edges, the two bounded searches over them, and the expansion of a caller's grants |
| `Text`, `RouteTemplates`, `RouteResolution`, `Registry`, `RouteServing`, `PluginRegistry`, `PluginBoot` | route templates, declarations, the Live/Known slots, resolving a request, and building the registry at start |
| `OutboxRows`, `OutboxProtocol`, `OutboxSteps`, `OutboxGuarantees`, `OutboxBackoff`, `OutboxRuns`, `OutboxTable`, `Reconciliation` | the transactional outbox: statements, relays as a distributed protocol, what single steps come to, whole runs, one session's table, the report |
| `LifecycleRules`, `InFlight`, `IdentityHub`, `Lifecycle`, `LifecycleShape`, `LifecycleGuarantees`, `LifecycleSerial`, `LifecycleAlone`, `LifecycleProviders`, `LifecycleDrops`, `LifecycleRaces`, `LifecycleServing` | enabling and disabling plugins under their lifecycle locks, with requests, dropped handlers and crashes in between |
| `LifecycleDoors`, `DoorGuarantees`, `DoorClosings`, `DoorFlags`, `DoorProviders`, `DoorRaces` | the same with the requests that take no lifecycle lock: uninstall, reload and the choice of a set |
| `Governance`, `LifecycleRequests`, `DoorRequests` | enables, disables, choices, reloads and uninstalls as whole requests, one after the other, and that the steps of requests that do not overlap come to them |
| `AuditChain`, `AuditGuarantees` | the hash-chained audit log |
| `RateLimiter`, `ClientKey` | the fixed-window limiter and the key it counts under |
| `Gregorian`, `SeasonalTasks` | the troop year over the real calendar |
| `Announcements`, `AnnouncementSteps`, `AnnouncementGuarantees` | announcements, receipts and the badge |

## How to read it

**State machines.** The outbox, the plugin lifecycle and the announcements are transition systems:
a record `Sys`, a datatype `Step`, a total function `Next`, and `Run` over a list of steps. One
database statement, or one critical section, is one step, so a run is any interleaving of any
number of participants. A step that is not enabled leaves the state alone, so theorems over all
lists of steps are theorems over all schedules. History fields (`claims`, `calls`, `log`, `closings`,
`created`, `uses`, `owner`, `audited`) record what happened and are never read by a guard; only the
assumption that a load's pool is its own is stated with `owner`.

**The plugin lifecycle in two layers.** `Lifecycle` is what the locks order: enables and disables, each
in up to eight steps, with requests, dropped handlers and restarts in between. `LifecycleDoors` puts
that machine into a `World` where uninstalls, reloads and choices move too, step by step and without a
lock. Theorems of the `Lifecycle` modules are about runs of the first; theorems of the `Door` modules
hold with every door open, and are the exact ones for the server. `Governance` is the coarse form, a whole
request at a time; `DoorRequests` proves that the step machine refines it wherever requests do not overlap.

**Objects.** What the source updates in place is a class whose methods state their whole new state
through a function on values: `OutboxTable`, `PluginRegistry`, `InFlight`, `IdentityHub`,
`AuditLog`, `RateLimiter`. The state machines use the same functions, so a law proved of a function
holds of the method and of the step.

**Assumptions.** Each is a hypothesis of the theorems that need it, or part of how a step or a hash is defined.
- Outbox: a consumer that books a key once and a handler whose 2xx answer means it booked. The request
  carries no idempotency header (`server/src/outbox.rs:688-698`), so the payload must determine the
  consumer's key; the model lets the intent be that key. `PromptRunFor` says that no relay is still
  holding a claim of one intent after its lease; only the theorems that name it use it.
- Audit: the digest is collision-free and is never the all-zero start value; stored hashes have one length.
- Lifecycle: a database write that reports failure did not commit. A restart loads exactly the plugins
  whose flag is on and whose row does not say uninstalled; `BootsIff` says when a boot does. A handler may
  be dropped wherever it waits, because its caller's connection is gone. Every load opens a pool of its
  own. A plugin has a slot only if it has its row (`server/src/plugin_runtime.rs:868-891`): `NeedsKnown`
  asks it of those another needs. The generation a reload or a choice swaps in is any consistent one, because its rows were read
  one by one while others wrote them.
- Limiter: fewer than 2^32 hits on a key in one window.

## What turned out false

The code is modelled as it is. Where a promise of its documentation, or the natural reading of it,
fails, there is a concrete state that shows it and the exact condition under which it holds.

- *Cycles are removed at construction* (`server/src/scope_hierarchy.rs:30`). The search that refuses a
  closing edge is bounded, so a ring of five edges is kept (`FiveEdgeRingIsAccepted`). Cycles of up to
  four edges never survive (`BuildHasNoShortCycle`); the map is free of all cycles exactly when no
  accepted edge had its parent more than three edges below its child (`AcyclicIffNothingMissed`).
- *Delivered is terminal* (`server/src/outbox.rs:72`). `record` updates by id alone, so the record of
  any holder with another outcome takes a row out of `delivered`, and no other step does
  (`OnlyARecordUndoesDelivery`). That holder may be the relay whose lease was swept
  (`LateRecordUndoesDelivery`) or one well inside its own lease (`EarlyRecordUndoesDelivery`); either
  way some relay held that intent past its lease earlier (`UndoneDeliveryHadALateHolder`). While the
  holders of an intent are prompt it is terminal, whatever the others do (`DeliveredIsTerminal`).
- *A re-armed intent is healthy.* Its age is not reset: it stays in the report exactly when it was
  created before the pending bound (`RearmedStaysReported`).
- *Nothing is ever closed under a request* (`server/src/server.rs:1298-1303`). A pool is told to close
  while a request works on it exactly when a disable's wait ran out, when an enable whose flag write
  failed takes its plugin back, when a plugin is uninstalled, or when a reload or a choice swaps its
  generation out (`DoorClosings.ClosesUnderARequestIff`). All four happen (`TimedOutClosesOnARequest`,
  `RevertClosesOnARequest`, `UninstallClosesOnARequest`, `ReloadClosesOnARequest`). A disable whose wait
  succeeded never does it.
- *No state contradicts the database* (`server/src/server.rs:1186-1187`). Both halves fail, and each has
  its exact steps. A plugin that a restart would load is not live: `LostIff` says which steps part them and
  `LostEndsIff` which bring them together. A plugin is live that a restart would not load, with no change
  under way to settle it: `StrayIff` and `StrayEndsIff`. Over every run such a plugin was left so by one
  of those steps and has been since (`DoorFlags.QuietPluginsAreSynced`). Among enables and disables alone
  only a handler dropped between its two writes does it (`DriftIff`, `DriftEndsIff`). A reload that read
  the flags too early loses an enable (`ReloadLosesAnEnable`) and undoes a disable
  (`ReloadUndoesADisable`); its swap is right exactly when the flags are still those that were read
  (`AdoptionIsRightIff`).
- *The decision is always correct* (`server/src/plugin_runtime.rs:712-718`). Of one library, deciding by its
  file name comes to the same as opening it exactly when the name does not decide, or the library opens, is
  accepted, and declares the plugin it is named for (`HintIsRightIff`). One named for a disabled plugin
  that declares an enabled one is skipped, and the server starts without it (`NamedForAnother`): over a boot
  a wanted plugin is missing exactly when every library that declares it is named so
  (`WantedIsMissingIff`). A disabled plugin is recorded twice when a library declares its id before one
  named for it; then the server does not start again once it is enabled, and with the files in the other
  order it does not start at all (`StagedTwice`). A boot that succeeds is collision-free exactly when that
  did not happen (`BootIsServedIff`).
- *A plugin can never be left configured to call nothing* (`server/src/server.rs:214-219`). The locks
  are per plugin, so enabling store while stripe is being disabled breaks it (`DependencyRace`). Which
  steps break what is live, and what a restart would load, is exact: `FlagsBreakIff` and `LiveBreaksIff`
  of the locked protocol, `WantedBreaksIff` and `LiveBreaksWorldIff` with every door open. It holds at
  every step while no two changes of plugins that need each other overlap and no change of a plugin
  another needs is dropped halfway (`SerialRunsStayClosed`). A disable dropped halfway breaks it with no
  overlap (`DroppedDisableBreaksClosure`). So does one uninstall, which asks nobody
  (`UninstallLeavesADependent`); one choice, which counts an uninstalled plugin as there
  (`ChoiceCountsAnUninstalledPlugin`); and a choice that is written but not adopted, because the guard asks
  what is loaded and the reload asks the flags (`UnadoptedChoiceBreaksClosure`): the guard is right
  exactly when no flagged plugin needs this one (`DisableKeepsFlagsClosed`).
- *A required plugin may not be turned off* (`server/src/plugin_choice.rs:70-82`). No disable and no choice
  does. A live one stops exactly when an enable of it is reverted, when it is uninstalled, or when a
  generation without it is swapped in, and a restart stops loading it exactly when an uninstall marks its
  row (`RequiredGoesIff`). An uninstall does not ask (`UninstallAsksNobody`).
- *The last identity provider cannot be disabled* (`server/src/identity.rs:88-94`). With every door open
  the last one goes exactly when a disable, a reverted enable or an uninstall takes the only provider
  there is, or when a generation that knows none of the providers is swapped in
  (`DoorProviders.LastProviderGoesIff`). Two disables at once can do it (`ProviderRace`), and so can a
  disable and an uninstall (`UninstallDisableRace`). One request at a time no disable and no uninstall
  can; the revert of an enable whose flag write failed and such a swap still can, and nothing else
  (`OnlyTheseTakeTheLast`, `RevertLeavesNoProvider`). A choice leaves the provider of a plugin it drops
  answering, so the guard counts a provider whose plugin is gone (`ChoiceLeavesAProvider`,
  `ChoiceThenRevertLeavesNone`); the exact condition is `DisableKeepsALiveProvider`.
- *Publishing urgent needs two permissions at the announcement's scope*
  (`plugins/announcements/src/lib.rs:24-34`): the sharp one, and writing there, or managing there when the draft
  is somebody else's (`:1019-1027`). Someone without them makes an announcement sent and urgent at a scope
  exactly in three ways (`GateIsSkippedIff`): by publishing a draft that turned urgent, or moved there, since
  it was read; by an edit of a row whose status, category or scope is no longer what was read; or by an edit
  that readdresses the row just as it was read. The third takes one request and no race
  (`OneEditReaddresses`): moving a sent urgent notice asks for the sharp permission nowhere, and turning a
  notice urgent while moving it asks for it at the scope it leaves (`:1517-1541`). The first two need a write
  between a read and a write (`UrgentWithoutAuthority`, `MovedUnderItsPublisher`). Without stale writes, what
  is sent and urgent at a scope was made so by someone who may do that there exactly when its last such change
  did not readdress it (`UrgentIsAuthorised`).
- *The audit log detects edits.* Neither the acting user nor the time is in the digest
  (`server/src/db.rs:112-135`), so rewriting who acted or when is never seen
  (`ActorAndTimeEditsAreUnseen`), and a bar in a column can stand for the separator (`BarsCanMove`).
  Without stray bars an edit is unseen exactly when it changed only those two columns
  (`EditIsUnseenIff`). Inserting out of id order makes an untouched log look bad
  (`CleanIffLockedInIdOrder`).
- *Pruning the limiter is invisible* (`server/src/middleware.rs:117-121`). For a clock that does not go back
  it is (`PruningIsInvisible`). For any clock, a request of another key changes the next answer exactly
  when it prunes a spent slot whose window the next request's clock finds still running
  (`PruneShowsIff`), and a whole history counts as if nobody pruned exactly when no request finds its
  own slot gone that way (`PruningIsInvisibleIff`, `GoneNeedsALateClock`). It happens
  (`LateClockShowsThePruning`).

## Model

| member | source | states |
|---|---|---|
| ScopeGraph.Reachable | server/src/scope_hierarchy.rs:134-151 | the search answers yes exactly when a path of at most MAX_DEPTH edges exists, on any graph, and it terminates |
| ScopeGraph.DrainedIsComplete | server/src/scope_hierarchy.rs:137-149 | a first-in-first-out search that marks on pop and drained its queue has met everything within the bound |
| ScopeHierarchy.FromEdges | server/src/scope_hierarchy.rs:40-66 | the map built in place is the one the accepted rows define, row by row |
| ScopeHierarchy.RefusalIsExact | server/src/scope_hierarchy.rs:47-63 | refusing an edge is exactly what keeps closed walks of MAX_DEPTH + 1 edges or fewer out |
| ScopeHierarchy.BuildHasNoShortCycle | server/src/scope_hierarchy.rs:40-66 | over every row list in every order, no self-edge and no cycle of MAX_DEPTH + 1 edges or fewer survives |
| ScopeHierarchy.EdgesAreAcceptedRows | server/src/scope_hierarchy.rs:40-66 | an edge is in the map exactly when a row declared it and the rows before it let it in |
| ScopeHierarchy.ChildrenInOrder | server/src/scope_hierarchy.rs:40-66 | the children of a node are those of its accepted rows, in the order of the rows |
| ScopeHierarchy.BuildIsRepresentable | server/src/scope_hierarchy.rs:43-50 | no edge touches a scope type the SDK cannot represent |
| ScopeHierarchy.LodgeToPatrolIsAcyclic | server/src/scope_hierarchy.rs:26-28 | the two-level hierarchy of the Accords has no cycle of any length |
| ScopeHierarchy.AcyclicIffNothingMissed | server/src/scope_hierarchy.rs:30-40 | the documented promise holds exactly when no accepted row had its parent out of the search's reach below its child |
| ScopeHierarchy.FiveEdgeRingIsAccepted | server/src/scope_hierarchy.rs:30-40 | the bound is tight: a ring of MAX_DEPTH + 2 edges is accepted whole |
| GrantExpansion.BuildIsValid | server/src/scope_hierarchy.rs:40-66 | every built map meets what the descent relies on |
| GrantExpansion.DescendantsOf | server/src/scope_hierarchy.rs:84-106 | the trail of the search that marks on push: every node within the bound once, in order of distance |
| GrantExpansion.Descendants | server/src/scope_hierarchy.rs:84-106 | exactly the scopes below a scope within the bound, each once, none before a nearer one; in the words of the rows, the patrols and lodges that one to three edges lead to from the `lodge` or `patrol` node itself |
| GrantExpansion.Expand | server/src/scope_hierarchy.rs:111-130 | originals stay as a prefix, roles stay the same, and a role reaches a scope exactly when one of its grants is at it or within MAX_DEPTH edges above it; a lodge, or patrol, grant is there afterwards exactly when it was, or at most three edges lead to that `lodge`, or `patrol`, node from one of the role's grants |
| GrantExpansion.KeyTaken | server/src/scope_hierarchy.rs:113-126 | among well-formed grants the recorded key stands for exactly one grant |
| GrantExpansion.AppendingKeepsCoverage | server/src/scope_hierarchy.rs:111-130 | declaring one more edge never takes coverage away |
| GrantExpansion.CoverageIsDeclared | server/src/scope_hierarchy.rs:111-130 | beyond its own grants a role reaches a scope exactly when one to MAX_DEPTH accepted rows lead down to it from one of them: a patrol grant reaches its lodge only if edges were declared that way |
| GrantExpansion.CoverageInRows | server/src/scope_hierarchy.rs:111-170 | in the words of the rows: a role reaches a lodge, or a patrol, exactly when it holds a grant there or at the troop, or one to three accepted rows lead to that `lodge`, or `patrol`, node from that of one of its lodge or patrol grants |
| Text.JoinSplit | server/src/plugin_runtime.rs:294-328 | joining the segments of a path gives the path back |
| Text.SplitJoin | server/src/plugin_runtime.rs:294-328 | splitting joined segments gives the segments back |
| RouteTemplates.MatchPath | server/src/plugin_runtime.rs:293-311 | the matching loop returns the captures exactly when the template accepts the path: as many segments, none empty, each equal to its part of the template or under its capture's name |
| RouteTemplates.ShapeIsAcceptance | server/src/plugin_runtime.rs:313-328 | two templates collide exactly when they accept the same request paths |
| RouteTemplates.ValidateRoutePath | server/src/plugin_runtime.rs:330-356 | a template is accepted exactly when its captures are whole segments with distinct well-formed names and no other segment has a brace |
| RouteTemplates.FillUndoesMatch | server/src/plugin_runtime.rs:293-311 | putting the captures back rebuilds the request path |
| RouteTemplates.MatchUndoesFill | server/src/plugin_runtime.rs:293-311 | matching a filled template returns exactly the parameters |
| RouteTemplates.LiteralAccepts | server/src/plugin_runtime.rs:293-311 | a capture-free template accepts its own text and nothing else |
| RouteResolution.ValidateDeclaration | server/src/plugin_runtime.rs:1198-1235 | a declaration passes exactly when its id is plain and every route is under its own name, on a well-formed template, with no permission or one the plugin grants, and on a key not taken before; otherwise the answer names the fault of the first route that fails, and why it fails |
| RouteResolution.InstallKeepsServed | server/src/server.rs:1128-1157 | installing a valid plugin keeps the whole registry collision-free, whatever keys its check was seeded with and whatever was installed since |
| RouteResolution.OtherIdsOtherKeys | server/src/plugin_runtime.rs:1205-1212 | two plugins of different ids cannot declare one key: the namespace rule already keeps them apart |
| RouteResolution.LiveKeysRefuseNothing | server/src/server.rs:1120-1130 | seeding the check of an enable with the live keys refuses exactly what the plugin alone would be refused for |
| RouteResolution.StopKeepsServed | server/src/plugin_runtime.rs:502-519 | stopping a plugin keeps it so |
| RouteResolution.LookupIsMatch | server/src/plugin_runtime.rs:438-475 | a request is answered exactly when the template of some live route of its method matches, and then by one that does, with that match's captures |
| RouteResolution.FilledIsFound | server/src/plugin_runtime.rs:293-311 | a request made from a live template is answered, and with exactly the parameters when that template's route answers |
| RouteServing.LookupResolves | server/src/plugin_runtime.rs:438-475 | over the registry's slots: found exactly when a live slot has a route of the method whose template matches; the answer is a route that is the path itself if there is one, and otherwise the first that matches, by slot and then by declaration |
| RouteResolution.LiteralWins | server/src/plugin_runtime.rs:435-462 | a capture-free route is never shadowed by a capture |
| RouteResolution.WinnerIsNamedByThePath | server/src/plugin_runtime.rs:1205-1212 | whoever answers, its id is the path's second non-empty segment and it is live |
| RouteResolution.OrderAndRecordsDoNotMatter | server/src/plugin_runtime.rs:431-462 | plugin order and disabled records change no answer |
| RouteResolution.NoRouteShadowsAnother | server/src/plugin_runtime.rs:313-328 | no two live routes of one method accept the same set of paths |
| Registry.TransitionsAreLocal | server/src/plugin_runtime.rs:483-553 | each slot transition settles its own id and leaves the liveness of every other id alone |
| Registry.InstalledConsistent | server/src/plugin_runtime.rs:483-492 | ids stay unique and variant, loaded and enabled agree, after an install |
| Registry.StoppedConsistent | server/src/plugin_runtime.rs:502-519 | and after a stop |
| Registry.ErroredConsistent | server/src/plugin_runtime.rs:522-532 | and after a recorded error |
| Registry.RemovedConsistent | server/src/plugin_runtime.rs:538-553 | and after an uninstall |
| PluginRegistry.PluginRegistry.Find | server/src/plugin_runtime.rs:438-462 | the nested scan with its remembered template: Found exactly when some live route of the method matches the path, the one that is the path itself first, else the first that matches, with its captures; else what is known of the owner |
| PluginRegistry.PluginRegistry.Install | server/src/plugin_runtime.rs:483-492 | the plugin, with the routes it was loaded with, is in a live slot, in place of its record; every other slot is the old one; the answer says whether it was known |
| PluginRegistry.InstalledAnswers | server/src/plugin_runtime.rs:483-492 | after an install every route of the plugin is there, and a request that one of them matches is answered |
| PluginRegistry.StoppedIsSilent | server/src/plugin_runtime.rs:502-519 | after a stop none of its routes is, and no request is answered by it |
| PluginRegistry.RemovedIsSilent | server/src/plugin_runtime.rs:538-553 | nor after an uninstall |
| PluginRegistry.PluginRegistry.StopLive | server/src/plugin_runtime.rs:502-519 | the plugin's slot is the record of what was live, every other slot is the old one, and its parts come back exactly when it was live |
| PluginRegistry.PluginRegistry.RecordError | server/src/plugin_runtime.rs:522-532 | the slot carries that message and is otherwise what it was, no slot is made, and nothing that is live changes |
| PluginRegistry.PluginRegistry.Uninstall | server/src/plugin_runtime.rs:538-553 | the slot is gone and every other stays; exactly when it was loaded the plugin is retired and its pool told to close |
| PluginRegistry.PluginRegistry.ReplaceAll | server/src/plugin_runtime.rs:558-572 | the new generation is in; every loaded plugin of the old one is retired in order and its pool told to close |
| PluginBoot.BuildRegistry | server/src/plugin_runtime.rs:832-900 | the pass over the staged libraries with its seen ids and seen keys is the specified fold, and its first failure is the answer |
| PluginBoot.BootLoads | server/src/plugin_runtime.rs:832-900 | after a boot every slot agrees with its record and every live plugin is valid; live is exactly what was staged, not skipped by its file name and not switched off; recorded exactly what was switched off |
| PluginBoot.BootServesTheLibraries | server/src/plugin_runtime.rs:832-900 | a boot serves just what the libraries hold: every slot is that of a library, with the routes it declares, each on its own namespace and naming no permission or one the library grants, or the record its row and file give; and every library that may serve, or is switched off, has its slot |
| PluginBoot.LoadOneFailsIff | server/src/plugin_runtime.rs:832-900 | one library fails the boot exactly when its name does not say it is off and it does not open, has no plain id, a reserved one from an untrusted source or one seen before, or is to serve and does not start or declares out of order |
| PluginBoot.BootIsServedIff | server/src/plugin_runtime.rs:839-900 | a boot yields a collision-free registry exactly when no disabled plugin was recorded twice |
| PluginBoot.BootsIff | server/src/plugin_runtime.rs:783-795 | a boot loads what the flags say exactly when, besides, the flags that are on are those of the libraries that load |
| PluginBoot.StagedTwice | server/src/plugin_runtime.rs:709-728 | one disabled plugin in two libraries: two records, no restart once enabled, or no start, by the order of the files |
| PluginBoot.HintIsRightIff | server/src/plugin_runtime.rs:709-728 | of one library, deciding by its file name comes to the same as opening it exactly when the name does not decide, or the library opens, is accepted and declares the plugin it is named for |
| PluginBoot.WantedIsMissingIff | server/src/plugin_runtime.rs:832-893 | over a boot that succeeds, a plugin whose row wants it is not live exactly when every library that declares it is named for a disabled plugin |
| PluginBoot.NamedForAnother | server/src/plugin_runtime.rs:832-850 | a library named for a disabled plugin that declares an enabled one is skipped, and the server starts without it |
| OutboxRows.BackoffIsCappedDoubling | server/src/outbox.rs:452-460 | for every count the wait is 15 doubled per earlier attempt and capped at an hour, and no step overflows |
| OutboxRows.BackoffSchedule | server/src/outbox.rs:452-460 | the schedule itself: 15, 30, 60, 120, 240, 480, 960, 1920 seconds, and an hour from the ninth attempt on |
| OutboxRows.ConclusionsAreOk | server/src/outbox.rs:583-737 | a delivery concludes `delivered` exactly on a 2xx answer, pending only while attempts are left, and terminal exactly with an event; the handler is called only for a live declared principal past its gate |
| OutboxRows.RetriesAreExact | server/src/outbox.rs:583-737 | which failures are retried and which are refused for good, before and after the call, and that a retryable one exhausts the intent exactly on its last attempt |
| OutboxRows.VetInWords | server/src/outbox.rs:583-690 | before the call: what each check concludes, with its status, its error and its event |
| OutboxRows.ConcludeInWords | server/src/outbox.rs:690-737 | after it: a 2xx answer is delivered with its body, a 4xx refused with it, anything else tried again or, on the last attempt, given up |
| OutboxRows.StatementsKeepRowOk | server/src/db.rs:429-464 | every statement keeps the table's constraints and the evidence of each state |
| OutboxProtocol.EnqueueIsOwnPrincipal | server/src/db.rs:502-535 | a session enqueues exactly as a live principal the core declared for the plugin its own role names |
| OutboxProtocol.PluginRolesAre | server/src/db.rs:502-512 | which roles are a plugin's: the pattern's underscores stand for any character |
| OutboxProtocol.RefusalsAreTold | server/src/db.rs:502-535 | which refusal an enqueue gets, exactly |
| OutboxProtocol.StepRows | server/src/outbox.rs:465-526 | no step removes a row or changes its fact, and a row is added only when no row has its key |
| OutboxProtocol.StepKeepsOneIntentPerKey | server/src/db.rs:458-460 | two enqueues of one key, interleaved anyhow, leave one intent |
| OutboxProtocol.StepKeepsSafe | server/src/outbox.rs:465-737 | one step of any participant keeps every invariant of the protocol |
| OutboxSteps.EnqueueLands | server/src/db.rs:485-552 | an enqueue nobody comes between puts its row, pending and due now |
| OutboxSteps.ClaimTakes | server/src/outbox.rs:478-499 | an idle relay claims the least due row nobody has locked, and no other |
| OutboxSteps.VetStepAsks | server/src/outbox.rs:583-690 | a relay goes on to its call exactly when it can read the principal, as it is by then live and declared for its producer, and the gate lets it |
| OutboxSteps.CallBooks | server/src/outbox.rs:690-737 | a call that lands, or is answered with a 2xx, is booked once under its key; any other books nothing |
| OutboxSteps.RevocationStops | server/src/outbox.rs:583-640 | a revoked principal enqueues nothing more, and what was claimed in its name and not yet vetted is refused |
| OutboxGuarantees.EffectGuarantee | server/src/outbox.rs:465-737 | in every interleaving with no assumption on time: one intent per key, at most one booking per key, every booking from its intent, every delivered row booked |
| OutboxGuarantees.LedgerOnlyGrows | server/src/outbox.rs:583-737 | what the consumer booked is never withdrawn |
| OutboxGuarantees.CallsNeverExceedClaims | server/src/outbox.rs:529-556 | counting every call of every relay, the handler of an intent is never called more often than the intent was claimed |
| OutboxGuarantees.EachCallSpendsItsTicket | server/src/outbox.rs:529-556 | each call is made under a claim that made no call before, and is one more call of that claim's intent |
| OutboxGuarantees.AtMostOneHolder | server/src/outbox.rs:476-498 | while the holders of an intent are prompt it has at most one and its row is `attempting`, whatever becomes of other intents |
| OutboxGuarantees.AttemptsNeverExceedBudget | server/src/outbox.rs:430-449 | while its holders are prompt, the attempts of an intent never exceed its budget plus the leases swept since the last arming |
| OutboxBackoff.RetryWaitsItsBackoff | server/src/outbox.rs:452-526 | over every run with prompt holders of an intent, once an attempt is recorded to be retried nobody claims the row, and it is not due, before 15 seconds doubled per earlier attempt of its own, at most an hour, have passed; and then it is due |
| OutboxGuarantees.OnlyARecordUndoesDelivery | server/src/outbox.rs:501-526 | with no assumption on time, a row leaves `delivered` exactly by the record of a holder with another outcome |
| OutboxGuarantees.DeliveredIsTerminal | server/src/outbox.rs:72-73 | while the holders of an intent are prompt, its delivered row keeps its state and its evidence for the rest of the run |
| OutboxGuarantees.UndoneDeliveryHadALateHolder | server/src/outbox.rs:501-526 | whenever a delivery is undone, some relay held that intent past its lease earlier in the run |
| OutboxRuns.IntentsComeToRest | server/src/outbox.rs:430-449 | while its holders are prompt and alive and nobody re-arms it, an intent is claimed at most `max_attempts` times, and after that it is terminal |
| OutboxRuns.LateRecordUndoesDelivery | server/src/outbox.rs:501-526 | a twelve-step run in which a swept relay records late and a delivered intent is pending again, with one booking |
| OutboxRuns.EarlyRecordUndoesDelivery | server/src/outbox.rs:501-526 | a twelve-step run in which the swept relay delivered and a relay inside its lease, never swept, makes the intent pending again |
| OutboxTable.OutboxTable.Enqueue | server/src/db.rs:485-552 | the same key gives the same intent, a new key a new one, pending, due now, with six attempts; every refusal is told apart and changes nothing |
| OutboxTable.OutboxTable.ReclaimStale | server/src/outbox.rs:462-476 | exactly the attempts claimed more than two minutes ago go back, due at once, with their attempts and an error; no other row changes |
| OutboxTable.OutboxTable.ClaimNext | server/src/outbox.rs:478-499 | the smallest due id nobody locked is claimed, its attempt counted and stamped, and what is handed out is its row; or nothing was due |
| OutboxTable.OutboxTable.Record | server/src/outbox.rs:501-526 | on the id alone, whatever the row has become since: the state, the answer, its status and the error are the outcome's, the delivery is stamped exactly when delivered, a retry is due 15 seconds from now doubled per earlier attempt and at most an hour, any other outcome leaves the due time, every other column stays, and the constraints of the table are kept |
| OutboxTable.OutboxTable.RetryIntent | server/src/outbox.rs:1028-1092 | 404, 409, audit failure or re-armed, exactly; a re-armed intent is due now, has its attempts back and keeps its error |
| OutboxTable.OutboxTable.Drain | server/src/outbox.rs:528-556 | a pass makes at most 32 attempts and, stopping early, left nothing due but what others had locked; one shorter than the first backoff attempts each intent once, and writes its own outcome, at its own instant, with its own wait; every row it did not attempt is as the sweep left it |
| Reconciliation.FirstInOrderIsExact | server/src/outbox.rs:831-832 | the page is ascending, holds nothing else, and leaves out only what comes after a full page |
| Reconciliation.ReportIsExact | server/src/outbox.rs:813-832 | in every reachable state a row is reported exactly when refused, exhausted or overdue, under the label that says which; `unanswered` never occurs; a refused or exhausted one has its error |
| Reconciliation.ListedMeans | server/src/outbox.rs:798-832 | what is listed and as what, column by column and in seconds |
| Reconciliation.ReportIsAPage | server/src/outbox.rs:831-832 | the report is the page of at most 200 of them |
| Reconciliation.EmptyReportMeansHealthy | server/src/outbox.rs:865 | `ok` says exactly that no intent is refused, exhausted or overdue |
| Reconciliation.SweepClearsStalledAttempts | server/src/outbox.rs:125-127 | the lease is the shorter bound: right after a sweep no attempt is reported |
| Reconciliation.RearmedStaysReported | server/src/outbox.rs:826-830 | a re-armed intent stays reported, as stalled, exactly when it is older than the pending bound |
| LifecycleRules.RefusalsKeepSetsClosed | server/src/server.rs:222-259 | the two refusals are exactly what keeps a closed set closed |
| LifecycleRules.RefusalsAre | server/src/server.rs:203-259 | which plugins these are: auth and membership are never disabled, stripe not while store is loaded, and store not enabled without stripe |
| InFlight.EnterTallies | server/src/server.rs:101-110 | entering keeps every count equal to the guards alive |
| InFlight.LeaveTallies | server/src/server.rs:151-161 | so does dropping a guard, and no entry is kept at zero |
| InFlight.InFlight.Enter | server/src/server.rs:101-110 | the count of one plugin rises by one |
| InFlight.InFlight.Drop | server/src/server.rs:151-161 | it falls by one, and the entry goes at zero |
| IdentityHub.ChangesToEnabled | server/src/identity.rs:53-87 | what each change does to the set of providers that answer |
| IdentityHub.IdentityHub.IsSoleEnabledProvider | server/src/identity.rs:95-100 | true exactly when this owner's provider is registered and on, and no other is |
| IdentityHub.IdentityHub.Register | server/src/identity.rs:53-58 | one provider per owner, the last one |
| IdentityHub.IdentityHub.SetEnabled | server/src/identity.rs:60-68 | one owner is switched |
| IdentityHub.IdentityHub.Remove | server/src/identity.rs:70-77 | the provider and its switch are gone |
| IdentityHub.IdentityHub.Retain | server/src/identity.rs:82-87 | exactly the live owners stay, switches with them |
| LifecycleGuarantees.StepKeepsSafe | server/src/server.rs:1055-1316 | one step of any enable, disable, request or restart keeps every invariant |
| LifecycleGuarantees.LifecycleGuarantee | server/src/server.rs:1055-1316 | at every step of every interleaving of enables, disables, requests and restarts with failing loads, audits and writes, dropped handlers and crashes: a flag that is on means live; slots are consistent; every logged change follows its own audit row; counts are guards |
| LifecycleGuarantees.ChangesAreAuditedFirst | server/src/server.rs:1108-1121 | whatever turns a flag or a plugin's liveness, crashes apart, is a step of a task of that plugin whose audit row is already written, and its log entry says what changed |
| LifecycleGuarantees.EveryChangeIsAudited | server/src/server.rs:1108-1121 | the same at every step of every run |
| LifecycleGuarantees.DriftIff | server/src/server.rs:1180-1200 | among enables, disables, requests and restarts, a plugin is left live with its flag off, and nobody about to settle it, exactly by dropping the handler of its enable or disable between the two writes |
| LifecycleGuarantees.DriftEndsIff | server/src/server.rs:1079-1087 | there it ends exactly with the flag write of its next disable or with a restart; an enable answers that it is loaded already |
| LifecycleGuarantees.DriftComesFromADrop | server/src/server.rs:1180-1200 | over every such run, a plugin that is adrift was left so by one such drop and has been since |
| LifecycleGuarantees.QuietPluginsAreSynced | server/src/server.rs:1156-1200 | over every such run, whenever no change of a plugin is under way it is live exactly when its flag is on, unless one was dropped halfway and nothing has settled it since |
| LifecycleGuarantees.StoppedPluginOnlyDrains | server/src/server.rs:671-698 | after a disable stops routing no request enters: those inside only become fewer |
| LifecycleGuarantees.CountOnlyFalls | server/src/server.rs:1275-1304 | over any stretch past the stop the in-flight count never rises |
| LifecycleGuarantees.PoolClosesOnNobody | server/src/server.rs:1284-1304 | when the wait succeeded nobody is inside when the pool closes |
| LifecycleGuarantees.ClosesUnderARequestIff | server/src/server.rs:1284-1304 | of the steps of enables and disables, exactly the end of a disable whose wait ran out and the taking back of an enable close a plugin's pool with a request of it inside |
| LifecycleGuarantees.PoolsCloseOnNobodyUnless | server/src/server.rs:1284-1304 | over every run of enables, disables, requests and restarts a pool that closes has nobody inside, or closes by one of those two |
| LifecycleGuarantees.ProvidersFollowPlugins | server/src/server.rs:1157-1199 | while a stopped plugin drains its provider does not answer, and when an enable writes its flag its provider is not switched off |
| LifecycleGuarantees.PoolsCloseLast | server/src/server.rs:1275-1304 | a step of an enable or disable closes a pool only after its disable's wait, or when an enable takes its plugin back |
| LifecycleServing.InstallServes | server/src/server.rs:1128-1157 | once an enable installs what it loaded, every route of it is there and answered, and what else was there is untouched |
| LifecycleServing.StopSilences | server/src/server.rs:1275-1282 | once a plugin is stopped none of its routes is there, and everybody else's are |
| LifecycleServing.OthersAnswerAlike | server/src/server.rs:1055-1316 | no other step but a restart changes which routes are there, or whose they are |
| LifecycleSerial.FlagsBreakIff | server/src/server.rs:222-259 | in every state whose flags are closed a step leaves them not closed exactly when it writes a flag on while a needed one is off, or off while a dependent's is on |
| LifecycleSerial.LiveBreaksIff | server/src/server.rs:222-259 | what is live stops being closed exactly when an enable installs without what it needs, a stop takes what a live plugin needs, or a restart loads flags that are not closed |
| LifecycleSerial.StepKeepsOrder | server/src/server.rs:203-259 | while no two changes under way are of linked plugins, and a plugin another needs has its row and is not adrift, one step of any change keeps the loaded set and the flags closed and what every guard found true |
| LifecycleSerial.SerialRunsStayClosed | server/src/server.rs:203-259 | over every run in which changes of linked plugins do not overlap and no change of a plugin another needs is dropped halfway, and such a plugin has its row, what is loaded and what a restart would load stay closed, crashes included; other plugins do as they like |
| LifecycleProviders.LastProviderGoesIff | server/src/identity.rs:60-68 | in every state, a step but a restart takes the last provider exactly when it switches off the provider of its own plugin while that is the only one |
| LifecycleProviders.OnlyARevertTakesTheLast | server/src/server.rs:1237-1250 | over every run without overlap, with drops and failures anywhere and dev headers off, the one step but a restart that takes the last provider is the revert of an enable; no disable is |
| LifecycleProviders.AProviderStays | server/src/server.rs:1237-1250 | so over any stretch of such a run without a restart and without such a revert a provider stays |
| LifecycleProviders.RevertLeavesNoProvider | server/src/server.rs:1181-1197 | from every booted server with one provider: a load that fails after registering, a disable and an enable whose flag write fails, one after the other, leave none |
| LifecycleDrops.DroppedDisableBreaksClosure | server/src/server.rs:1263-1277 | never with two changes at once, a disable of stripe dropped after its flag write lets store be enabled, and the next restart loads store without stripe |
| LifecycleRaces.DependencyRace | server/src/server.rs:1064-1090 | from every booted server with stripe loaded and store off, an overlap leaves store loaded and flagged without stripe |
| LifecycleRaces.ProviderRace | server/src/server.rs:1237-1250 | from every booted server with two disablable providers, an overlap leaves none |
| LifecycleRaces.RevertClosesOnARequest | server/src/server.rs:1181-1200 | from every booted server, an enable whose flag write fails can close its pool under a request |
| LifecycleRaces.TimedOutClosesOnARequest | server/src/server.rs:1287-1304 | from every booted server with a plugin that may be disabled, a disable whose wait runs out closes its pool under the request it waited for |
| LifecycleRaces.AdoptionIsRightIff | server/src/server.rs:1451-1459 | swapping in a generation built from flags as they were read: no flag is on without its plugin live exactly when nothing was flagged since, no plugin is live without its flag on exactly when nothing was unflagged since, and both exactly when the flags are those that were read |
| LifecycleRaces.ReloadLosesAnEnable | server/src/server.rs:1492-1534 | from every booted server, an enable that finishes between the reading and the swap of a reload is flagged and not live |
| LifecycleRaces.ReloadUndoesADisable | server/src/server.rs:1492-1534 | from every booted server, a disable that finishes between the reading and the swap of a reload is unflagged and live again |
| DoorGuarantees.StepKeepsSound | server/src/server.rs:1055-1540 | one step of anybody, uninstalls, reloads and choices included, keeps every invariant: consistent slots, audit rows first, counts that are guards, each request on a pool of its plugin, each pool a disable holds routed to by nobody |
| DoorGuarantees.WorldRunsAreSound | server/src/server.rs:1055-1540 | so they hold over every run of everybody, restarts included |
| DoorClosings.ClosesUnderARequestIff | server/src/plugin_runtime.rs:538-572 | with every door open a step closes a pool that a request inside works on exactly when it ends a disable whose wait ran out, takes an enable back, uninstalls the plugin or swaps its generation out |
| DoorClosings.PoolsCloseOnNobodyUnless | server/src/plugin_runtime.rs:538-572 | the same at every step of every run |
| DoorFlags.LostIff | server/src/server.rs:1318-1540 | a plugin that a restart would load comes not to be live exactly by a flag written on after its plugin was taken, a stop or uninstall of a wanted one, a choice of one that is not live, or a swap to a generation without it |
| DoorFlags.LostEndsIff | server/src/server.rs:1318-1540 | and is live or unwanted again exactly by an install, a disable's flag write, a mark, a choice without it, a swap that has it, or a restart |
| DoorFlags.StrayIff | server/src/server.rs:1318-1540 | a plugin is left live that a restart would not load, with no change about to settle it, exactly by a dropped handler, a flag written on for a row marked uninstalled, a mark, a choice without it, or a swap that has it |
| DoorFlags.StrayEndsIff | server/src/server.rs:1318-1540 | and that ends exactly by a change that takes it up, an uninstall, a choice with it, a swap without it, or a restart |
| DoorFlags.LostComesFrom | server/src/server.rs:1318-1540 | over every run a wanted plugin that is not live was lost by one such step and has been since |
| DoorFlags.StrayComesFrom | server/src/server.rs:1318-1540 | and a live one that a restart would not load was left so by one such step and has been since |
| DoorFlags.QuietPluginsAreSynced | server/src/server.rs:1186-1187 | over every run, whenever no change of a plugin is under way it is live exactly when a restart would load it, unless one of those steps parted them and nothing has brought them together since |
| DoorFlags.WantedBreaksIff | server/src/server.rs:222-259 | with every door open, what a restart would load stops being closed exactly by a flag write against the rules, an uninstall of a plugin a wanted one needs, or a choice that counts an uninstalled plugin |
| DoorFlags.LiveBreaksWorldIff | server/src/server.rs:222-259 | and what is live exactly by an install or stop against the rules, an uninstall of a plugin a live one needs, a swap to a generation that is not closed, or a restart from rows that are not |
| DoorFlags.RequiredGoesIff | server/src/server.rs:203-259 | over every run, restarts apart, a live required plugin stops exactly by the revert of an enable, its uninstall or a swap without it, never by a disable; a restart stops loading it exactly by the mark of an uninstall, never by a choice |
| DoorFlags.ChangesAreAuditedFirst | server/src/server.rs:1346-1540 | with every door open, restarts apart, whatever changes what is live or what a restart would load is a step of a request whose audit row is already written |
| DoorProviders.LastProviderGoesIff | server/src/identity.rs:53-87 | with every door open, restarts apart, the last provider goes exactly when the switch of its own plugin, the end of its uninstall, or the pruning after a swap takes it while it is the only one |
| DoorProviders.OnlyTheseTakeTheLast | server/src/server.rs:1330-1345 | over every run with one request at a time and dev headers off, restarts apart, exactly the revert of an enable or the pruning after a swap does; no disable and no uninstall |
| DoorRaces.UninstallClosesOnARequest | server/src/plugin_runtime.rs:538-553 | from every booted server, an uninstall closes its pool under a request |
| DoorRaces.ReloadClosesOnARequest | server/src/plugin_runtime.rs:558-572 | from every booted server and for every generation, a reload closes the old pools under a request |
| DoorRaces.UninstallAsksNobody | server/src/server.rs:1318-1393 | from every booted server, one uninstall stops any live plugin that is not the only provider, required or not, and no restart loads it again |
| DoorRaces.UninstallLeavesADependent | server/src/server.rs:1318-1393 | from every booted server with store and stripe, one uninstall leaves store live, and wanted, without stripe |
| DoorRaces.ChoiceCountsAnUninstalledPlugin | server/src/plugin_choice.rs:45-86 | while stripe is uninstalled every accepted choice with store makes every restart load store alone |
| DoorRaces.UninstallDisableRace | server/src/server.rs:1330-1345 | from every booted server with two providers, an uninstall of one and a disable of the other leave none |
| Governance.ChoiceIsExact | server/src/plugin_choice.rs:35-130 | a choice is written exactly when it is a closed set of provisioned plugins with every required one, and then the flags say exactly it |
| Governance.ChoiceRefusalsAre | server/src/plugin_choice.rs:35-130 | a refused choice says what is wrong, the first of the four rules it breaks |
| Governance.SerialRunsStayGoverned | server/src/server.rs:1055-1316 | over serial enables, disables, choices and reloads the loaded set is closed, is what the flags say, and holds every required plugin |
| Governance.DisableKeepsFlagsClosed | server/src/server.rs:222-242 | an allowed disable leaves the flags closed exactly when no flagged plugin needs this one |
| Governance.UnadoptedChoiceBreaksClosure | server/src/plugin_choice_routes.rs:104-127 | a written choice that could not be adopted, then a disable, then a reload, loads store without stripe |
| Governance.LastProviderGoesIff | server/src/server.rs:1181-1250 | over every enable, disable, choice and reload with failures anywhere, the last provider goes exactly when an enable of its plugin is taken back, when with dev headers on its plugin is disabled, or when a generation without one is swapped in |
| Governance.UninstallKeepsAProvider | server/src/server.rs:1330-1345 | an uninstall takes the last provider exactly when it is its plugin's own and dev headers are on |
| Governance.DisableKeepsALiveProvider | server/src/server.rs:1237-1250 | of the providers whose plugin is loaded, one is left exactly when there was another |
| Governance.ChoiceLeavesAProvider | server/src/server.rs:1465-1472 | a choice that drops a plugin leaves its provider answering, and the last loaded one may then be disabled |
| Governance.ChoiceThenRevertLeavesNone | server/src/server.rs:1181-1197 | after that, one enable of the dropped plugin whose flag write fails leaves no provider |
| Governance.ChoiceDoesNotSwitchOn | server/src/server.rs:1465-1472 | a choice that brings a plugin back leaves its provider off, and an enable then does nothing |
| LifecycleRequests.CheckMeans | server/src/server.rs:1055-1121 | a check lets exactly the permitted pass; a rule that refuses is logged, an unknown plugin and one that is loaded are not |
| LifecycleRequests.EnableIsItsSteps | server/src/server.rs:1055-1200 | with no other change between them, the steps of an enable come to the whole request, whatever fails in it |
| LifecycleRequests.DisableIsItsSteps | server/src/server.rs:1210-1316 | and those of a disable, however long the requests inside keep it waiting |
| LifecycleRequests.RestartForgets | server/src/server.rs:372-590 | a restart keeps the flags and the log and nothing else: the flagged plugins are live and every provider they bring answers, switched off before or not |
| DoorRequests.ReloadIsItsSteps | server/src/server.rs:1492-1540 | the steps of a reload come to the whole request: what it started is registered whatever fails, and what it loaded serves when nothing does |
| DoorRequests.ChooseIsItsSteps | server/src/plugin_choice_routes.rs:63-127 | and those of a choice, whose flags stay written when its generation is not adopted |
| DoorRequests.UninstallIsItsSteps | server/src/server.rs:1322-1393 | and those of an uninstall, which marks the row exactly when there is one |
| DoorRequests.RequestsInTurn | server/src/server.rs:1055-1540 | so over every history of enables, disables, choices and reloads that do not overlap, with failures anywhere, the step machine of all doors refines the whole requests |
| DoorRequests.RequestsInTurnStayGoverned | server/src/server.rs:203-259 | and what the requests keep the steps keep: loaded is what the flags say, store not without stripe, and auth and membership wherever they are provisioned |
| DoorRequests.HistoriesAreRuns | server/src/server.rs:1055-1540 | every such history of requests is a run: there always are libraries and generations for it |
| AuditChain.DecimalIsInjective | server/src/db.rs:114-118 | two ids with the same text are the same id |
| AuditChain.AuditLog.Backfill | server/src/db.rs:111-120 | the loop with its running hash is the chain over the rows in id order: each row's hash is that of the one before with its own text, the columns in order between bars |
| AuditChain.AuditLog.Insert | server/src/db.rs:122-138 | a new entry is put in its place by id and chains to the row with the greatest id; a used id is refused |
| AuditChain.AuditLog.Verify | server/src/db.rs:155-168 | the verifier counts every row and names the first whose hash is not that of the row before with its own text, or says there is none exactly when there is none |
| AuditGuarantees.FilledIsClean | server/src/db.rs:111-120 | back-filling any log gives a clean one with the same entries |
| AuditGuarantees.NewestInsertIsClean | server/src/db.rs:122-138 | inserting the newest id keeps a clean log clean |
| AuditGuarantees.CleanIffLockedInIdOrder | server/src/db.rs:122-138 | over any run of inserts the verifier finds nothing exactly when the lock was taken in id order |
| AuditGuarantees.EditIsLocated | server/src/db.rs:155-168 | an edited row is the first bad one exactly when the covered text changed, and otherwise nothing is bad |
| AuditGuarantees.CoveredTextIsUnambiguous | server/src/db.rs:112-135 | without bars outside the details, the covered text changes exactly when a column other than the actor and the time does |
| AuditGuarantees.ActorAndTimeEditsAreUnseen | server/src/db.rs:95-135 | changing who acted, or when, is never seen |
| AuditGuarantees.EditIsUnseenIff | server/src/db.rs:95-135 | without stray bars an edit is unseen exactly when it changed only who and when |
| AuditGuarantees.BarsCanMove | server/src/db.rs:114-135 | a bar can move between columns unseen |
| AuditGuarantees.DeletionIsUnseenIffSuffix | server/src/db.rs:155-168 | deleting rows is unseen exactly when a prefix is left |
| AuditGuarantees.FirstGapIsFirstBad | server/src/db.rs:155-168 | otherwise the row after the first gap is the first bad one |
| AuditGuarantees.DeletingOneFlagsItsSuccessor | server/src/db.rs:155-168 | deleting one row that is not the last flags its successor |
| AuditGuarantees.SameAnchorSameLog | server/src/db.rs:108-168 | two clean logs that end in one hash cover the same texts: a remembered last hash detects any rewrite |
| RateLimiter.RateLimiter.Check | server/src/middleware.rs:112-129 | a key's first hit, or one past its window, opens a window with one hit; any other counts one up in its window; the answer is whether the count is within the limit; other keys lose only spent windows, and only once the map is large; zero disables it |
| RateLimiter.PruningIsInvisible | server/src/middleware.rs:117-121 | under a clock that does not go back, the answer is that of a key nobody prunes |
| RateLimiter.OtherKeysDoNotMatter | server/src/middleware.rs:112-129 | two histories with the same hits of a key get the same answer |
| RateLimiter.PruneShowsIff | server/src/middleware.rs:112-129 | after every history, whatever its clock, a request of another key changes the answer to the next one exactly when it prunes that key's spent slot and the next clock finds its window still running; then it is admitted over budget |
| RateLimiter.PruningIsInvisibleIff | server/src/middleware.rs:112-129 | over every history every request counts as if nobody pruned exactly when none finds its slot gone while its window still runs by its own clock |
| RateLimiter.GoneNeedsALateClock | server/src/middleware.rs:117-121 | the first to find it gone read an earlier clock than some request before it |
| RateLimiter.LateClockShowsThePruning | server/src/middleware.rs:117-121 | for every window, a history of requests after which a late one is admitted over budget, and refused without the prune |
| RateLimiter.WindowAdmitsItsFirstHits | server/src/middleware.rs:122-128 | a window admits exactly its first `max_requests` hits |
| RateLimiter.IntervalBound | server/src/middleware.rs:122-128 | any half-open interval one window long admits at most twice the limit less one |
| RateLimiter.IntervalBoundIsReached | server/src/middleware.rs:122-128 | that bound is reached for every limit and every window of two instants or more |
| RateLimiter.HistoryBound | server/src/middleware.rs:112-129 | over every history of requests of many keys, pruned or not, no interval one window long admits a key more often than that |
| ClientKey.KeyIsPeerOrNearestUntrusted | server/src/middleware.rs:88-110 | the key is the peer, or behind a trusted peer the one untrusted hop with only trusted hops to its right |
| ClientKey.HopsAreTheAddresses | server/src/middleware.rs:88-110 | the hops of a forwarded header are exactly its addresses, in order, without the white space around them and without the empty parts |
| ClientKey.InjectedHopsAreIgnored | server/src/middleware.rs:80-87 | what a client writes to the left of the hops its proxies append never changes its key |
| ClientKey.InjectionNeedsAnUntrustedHop | server/src/middleware.rs:88-110 | when every appended hop is trusted the key is read off what the client wrote |
| Gregorian.YearLength | plugins/calendar/src/season.rs:249-257 | a year has 366 days exactly in leap years, by the month table and by the day count |
| Gregorian.NextDayCounts | plugins/calendar/src/season.rs:249-257 | the next date is one day later, over months, leap Februaries and years |
| Gregorian.PrevDayCounts | plugins/calendar/src/season.rs:255 | the date before is one day earlier |
| Gregorian.PrevUndoesNext | plugins/calendar/src/season.rs:255 | stepping forward and back are inverse |
| Gregorian.NextIsNext | plugins/calendar/src/season.rs:238 | nothing lies between a date and the next |
| SeasonalTasks.DueDateMeans | plugins/calendar/src/season.rs:247-257 | a task is due in exactly the years the library represents, save December of the last, on its day or the last of a shorter month |
| SeasonalTasks.SortedIsSorted | plugins/calendar/src/season.rs:243 | sorting orders the items and loses, adds and repeats none |
| SeasonalTasks.SortIsStable | plugins/calendar/src/season.rs:243 | tasks of one day stay in the order they were collected |
| SeasonalTasks.SeasonalTasksBetween | plugins/calendar/src/season.rs:225-245 | the loops over years and tasks and the sort: each date of the window holds its tasks once for each time they are declared, in the order they are declared, and the dates ascend |
| SeasonalTasks.BetweenIsExact | plugins/calendar/src/season.rs:220-245 | a window holds exactly the tasks due in it, over every year it touches, in order of date |
| SeasonalTasks.WindowsSplit | plugins/calendar/src/season.rs:220-245 | a window is its first part followed by the rest, wherever it is cut |
| SeasonalTasks.TroopYear | plugins/calendar/src/season.rs:35-211 | every task of the troop year names a real day of its month in every year |
| AnnouncementGuarantees.StepMovesForward | plugins/announcements/src/lib.rs:997-1701 | in one step of any handler a row moves draft, published, retracted or stays, and an instant once set stays |
| AnnouncementGuarantees.AnnouncementGuarantee | plugins/announcements/src/lib.rs:851-1765 | in every interleaving: status and instants agree, each announcement is announced at most once and never as a draft, receipts made less unmade are the one stored or none |
| AnnouncementGuarantees.HistoryMovesForward | plugins/announcements/src/lib.rs:1855-1863 | over a whole run a row only moves forward and each instant is set once |
| AnnouncementGuarantees.GateIsSkippedIff | plugins/announcements/src/lib.rs:24-34 | someone without both permissions at a scope makes an announcement sent and urgent there exactly by a stale publish, a stale edit, or an edit that readdresses what it read |
| AnnouncementGuarantees.EscalationsAreAllowedOrStale | plugins/announcements/src/lib.rs:997-1053 | over every run each such step is by someone who may at that scope exactly when it is none of the three; with fresh writes, exactly when it does not readdress |
| AnnouncementGuarantees.UrgentIsAuthorised | plugins/announcements/src/lib.rs:24-34 | with fresh writes, whatever is sent and urgent at a scope has been so since its last such step, which was by someone with both permissions there exactly when it did not readdress |
| AnnouncementGuarantees.OneEditReaddresses | plugins/announcements/src/lib.rs:1468-1610 | in every state, an edit that leaves a sent notice urgent at a scope where its caller may not send urgent ones is accepted exactly when the caller manages the old scope, may write at the new one and, if it was not urgent, holds the sharp permission at the old; it needs no stale read |
| AnnouncementGuarantees.MovedUnderItsPublisher | plugins/announcements/src/lib.rs:997-1053 | in every state with an urgent draft, its author may move it while its publisher sends it, to where neither may send urgent ones |
| AnnouncementGuarantees.UrgentWithoutAuthority | plugins/announcements/src/lib.rs:997-1053 | a five-step run in which nobody may send urgent ones and one is sent |
| AnnouncementSteps.CreateMakes | plugins/announcements/src/lib.rs:851-990 | who may create, and send at once, and the row it makes |
| AnnouncementSteps.PublishSends | plugins/announcements/src/lib.rs:997-1053 | a publish nobody comes between sends the draft now exactly when its caller may, and otherwise changes nothing |
| AnnouncementSteps.EditPatches | plugins/announcements/src/lib.rs:1468-1610 | an edit nobody comes between leaves the row as the patch supplies it exactly when its caller may |
| AnnouncementSteps.DeleteTakesReceipts | plugins/announcements/src/lib.rs:1739-1765 | a delete takes the row and exactly its receipts, by the troop-wide permission alone |
| AnnouncementSteps.MarkToggles | plugins/announcements/src/lib.rs:1276-1415 | a member who sees a notice marks it read, once published, or unread: one receipt, there or gone |
| AnnouncementSteps.SeesMeans | plugins/announcements/src/lib.rs:475-502 | who sees a draft, and who what was sent |
| AnnouncementGuarantees.BadgeAddsUp | plugins/announcements/src/lib.rs:637-664 | visible is read plus unread, unread is its three categories, and all of it is visible by the shared rule |
| AnnouncementGuarantees.BadgeMeans | plugins/announcements/src/lib.rs:637-664 | what the badge counts: published, not expired, and addressed to a scope the member reads, or the member's own, or where the member manages |
| AnnouncementGuarantees.MarkingMovesOne | plugins/announcements/src/lib.rs:1276-1415 | marking moves one announcement for one member, and marking again or off the badge moves nothing |
| AnnouncementGuarantees.OthersKeepTheirBadge | plugins/announcements/src/lib.rs:1276-1415 | nobody else's badge changes |

## Left out

- HTTP plumbing, JSON shaping, request logging and status texts: messages are reduced to their reason.
- PostgreSQL: a statement is one atomic step. Snapshot effects inside one statement, such as the receipt insert that loses to a concurrent one and returns no row, are not modelled.
- The target's method of an intent and the upper-casing of it: an intent's route stands for both.
- The recorded answer body and its truncation to 8 KB.
- Publishing of outbox events after a record, and the mismatch event: `Delivery.event` says whether one is raised, not whether it arrives.
- OutboxTable.OutboxTable.Drain: other sessions lock rows but do not write between its statements; the interleaved form is the protocol.
- OutboxTable.OutboxTable.Record: the statement has no guard to state; what an outcome written on the id alone may undo is OnlyARecordUndoesDelivery.
- The outbox producer view and the list route: reads only.
- LifecycleGuarantees.LifecycleGuarantee: of the locked protocol; that a flag that is on means live fails once an uninstall, a reload or a choice moves in between (DoorFlags.LostIff says when), the rest is DoorGuarantees.WorldRunsAreSound.
- LifecycleGuarantees.DriftIff: of the locked protocol; with every door open it is DoorFlags.StrayIff.
- LifecycleGuarantees.DriftEndsIff: of the locked protocol; with every door open it is DoorFlags.StrayEndsIff.
- LifecycleGuarantees.DriftComesFromADrop: of the locked protocol; with every door open it is DoorFlags.StrayComesFrom.
- LifecycleGuarantees.QuietPluginsAreSynced: of the locked protocol; with every door open it is DoorFlags.QuietPluginsAreSynced.
- LifecycleGuarantees.ClosesUnderARequestIff: of the locked protocol; with every door open it is DoorClosings.ClosesUnderARequestIff.
- LifecycleGuarantees.PoolsCloseOnNobodyUnless: of the locked protocol; with every door open it is DoorClosings.PoolsCloseOnNobodyUnless.
- LifecycleGuarantees.PoolsCloseLast: of the locked protocol; an uninstall and a swap close at once.
- LifecycleGuarantees.CountOnlyFalls: of the locked protocol; a swap may bring the plugin back, and requests with it, while its disable still waits.
- LifecycleGuarantees.StoppedPluginOnlyDrains: of the locked protocol; after a swap has brought the plugin back requests enter again.
- LifecycleGuarantees.ProvidersFollowPlugins: of the locked protocol; an uninstall, or a pruning, drops the switch of a provider.
- LifecycleSerial.SerialRunsStayClosed: of the locked protocol; with every door open DoorFlags.WantedBreaksIff and DoorFlags.LiveBreaksWorldIff give the exact steps.
- LifecycleProviders.OnlyARevertTakesTheLast: of the locked protocol; with every door open it is DoorProviders.OnlyTheseTakeTheLast.
- Governance.UninstallKeepsAProvider: one atomic request; its steps alone are DoorRequests.UninstallIsItsSteps, and between those of others DoorProviders.LastProviderGoesIff and DoorRaces.UninstallDisableRace.
- DoorRequests.RequestsInTurn: uninstalls are not among its requests, as the coarse form reads the flags and not the marks; an uninstall alone is DoorRequests.UninstallIsItsSteps.
- LifecycleDoors: the generation of a swap is not tied to the rows of one moment; AdoptionIsRightIff says what follows when it is.
- Lifecycle: a load dropped midway is a load that fails without its refusal row, or one that succeeds and is dropped after it.
- PluginBoot: rows do not change while the libraries are read; a failing query of a row, and the reasons a plugin does not start, are one failure.
- Lifecycle guards: the registry guard and the provider guard of a disable are one step, where the source takes two locks in turn.
- Event bus, scheduler and subscription handlers of a plugin, and relay deliveries, which are not counted as in flight.
- The loading of a library, its ABI check and WASM: a load succeeds with its routes or fails, perhaps after registering a provider.
- Governance.SerialRunsStayGoverned: every provisioned plugin is on disk; plugins on disk that are not provisioned make a load fail.
- AuditChain: the bytes of SHA-256, and the triggers that refuse updates, deletes and truncation.
- RateLimiter: the width of the counter.
- ClientKey: header parsing before the forwarded value, and duplicate headers.
- SeasonalTasks: titles and details of tasks, tasks of month zero, the per-month list and the season names.
- Announcements: titles, bodies and listing filters; what a caller holds does not change while its request lasts; the route gate, a permission held at some scope, which only refuses more.
- DoorFlags.ChangesAreAuditedFirst: of the doors of the running server; the command-line choice (`server/src/cli.rs:434-446`) writes the same flags with no audit row and no swap, and is not modelled.
- Scheduler, notifications, backup, configuration layers, the command line, percent-decoding, calendar recurrence, and the plugins not named above.
- Password, OIDC and secret handling.
