# Fast Lane, verified

Fast Lane moves a router between VPN outbounds. This project models the algorithms and protocols underneath its
I/O and proves what they keep. `dafny verify dfyconfig.toml` checks all of it.

| area | modules |
|---|---|
| URL-test port locks: flock files that are also unlinked, a guard lock, any number of processes, crashes | `PortLocks`, `PortProgress` |
| Service catalog: validation, expansion and guarded deletion over a graph | `ServiceGraph`, `ServiceCatalog`, `CatalogValidation`, `ServiceExpansion`, `ServiceDeletion`, `ServiceMeaning`, `PresetTable` |
| Outbound switch, fail-open, AmneziaWG switch, handler cleanup | `OutboundSwitch`, `SwitchRecords` |
| Probe health, score, node choice, anti-flap | `ProbeHealth`, `NodeSelection`, `AntiFlap` |
| Automatic mode: evaluation, retrying commit and its fallback, unlocked probing, whole runs, passes on the Zapret transport | `Subscriptions`, `AutoSelection`, `AutoCommit`, `AutoFallback`, `AutoHealth`, `AutoRecords`, `AutoRuns`, `AutoZapret` |
| Reserve candidates: ranking, diversity, promotion | `ReserveRanking`, `ReserveSelection`, `ReserveRecords` |
| Recovery watch | `RecoveryWatch` |
| Binary formats: geoip.dat and LMO | `Protobuf`, `GeoIp`, `GeoAddresses`, `Lmo`, `LmoTexts`, `SuperFastHash` |

`Wrappers`, `Octets`, `Text`, `Sorting` and `Arithmetic` support the others. Code that changes state step by step is
a class or a method with a loop, proved equal to a specification function or against stated properties; protocols
between processes are transition systems. `PortProgress`, `ServiceMeaning`, `GeoAddresses`, `LmoTexts` and the
`…Records` modules say what those specifications give, in terms of the inputs and without naming their parts.

Durations and times are whole nanoseconds, float64 values are reals. Where a heavy function is only passed along, it
is a parameter (`Decider`, `Stepper`, `Planner`, `Ranker`); the members without that parameter instantiate it.

## Where the code does less than one might expect

* A managed switch or a fail-open that reaches its last step and cannot save leaves the persisted tag behind the live
  one. `OutboundSwitch.Router.ApplyNodeSelection` and `OutboundSwitch.Router.ActivateManagedDirect` state agreement as
  an if-and-only-if over the guards of the call, `OutboundSwitch.UnsavedSwitchDisagrees` is a run that ends so; the
  AmneziaWG switch rolls back and always agrees.
* One failed recovery from direct mode keeps the pinned tag, two in a row lose it: the state then claims a connected VPN
  over a direct selection (`OutboundSwitch.SecondFailedRecoveryLosesPin`, `OutboundSwitch.TwoFailedRecoveriesLosePin`).
  `OutboundSwitch.Router.Handle` says exactly which failures keep it.
* A switch is recorded from the state read before it. Unless the store can be read again, the route left is not listed
  as draining and no cleanup ever removes its handler; and the pauses recorded are those from before in any case, so the
  failures of a candidate that was switched to still count (`SwitchRecords.RecordedSwitch`). A rejected candidate is not
  paused either when its rejection is recorded without reading the store again (`SwitchRecords.FailedSwitch`).
* A listed reserve loses its handler when a switch rejects it as its candidate, when a cleanup retires another entry of
  its tag, or when a removal cannot read the list, and in no other way (`OutboundSwitch.Router.Run`). The second case
  comes about because draining entries stay listed when their tag is listed again as a reserve
  (`OutboundSwitch.ListedWithoutHandler`, `OutboundSwitch.ReaddedTagLosesHandler`).
* The currency check of an automatic pass compares the state with the cached health merged in, which masks a stored
  failure reason. `AutoHealth.PassIsAtomicUnless` says exactly when that shows: the pass asks whether to save, on the
  proxy route or on the Zapret transport, and the reason changes the answer. `AutoHealth.PassCanDiverge` shows both.
* Merging cached health keeps a stored entry under the empty ID whatever the cache knows
  (`AutoRecords.CapturedIsLater`).
* On the Zapret transport a pass over all subscriptions that only remembers its observations saves the scope right
  after, over the state in the store. That puts the stored health back into the cache and restarts the five minutes
  after which it would be saved. With passes closer together nothing is ever learned, and a node whose stored streak is
  short of the failback threshold by more than one pass adds never reaches it (`AutoZapret.QuietRunLearnsNothing`,
  `AutoZapret.StreakNeverReached`).
* The store does not read the optimization tracker back (internal/store/migrations.go:396-427 decodes no such field), so
  every pass starts from an empty one and a policy that demands two wins or more never switches for quality
  (`AutoRuns.ForgottenTrackerNeverSwitches`). The other theorems of `AutoRuns` are about any store that keeps or clears
  the tracker.
* When every candidate of an automatic commit is rejected, the state written is built from the snapshot taken before
  the attempts, since the loop declares a second variable of the same name. `AutoFallback.FallbackForgetsExactly` says
  when that loses something, `AutoFallback.RejectedSwitchIsForgotten` is a family of runs in which a handler stays
  whose entry is gone.
* An exclusion key is lost by normalisation when the subscription's ID has a slash with a blank before it
  (`Subscriptions.ExclusionTakes`, `Subscriptions.BlankBeforeSlashLosesExclusion`). The program makes no such IDs, only
  "sub-" with hexadecimal digits (internal/app/service.go:4856) and "server-list"; those are safe
  (`AutoCommit.GeneratedAreAddressable`).
* A failure can raise the score when it comes with a larger threshold than the failure before it
  (`ProbeHealth.FailureLowersScore`, `ProbeHealth.FailureCanRaiseScore`).
* `ShouldSwitchWithWins` and `IsOptimizationCandidate` part ways for a negative latency improvement
  (`AntiFlap.SwitchExactly`, `AntiFlap.SlipsHappen`), which the setter refuses (internal/app/service.go:3076-3083), so
  that it takes an edited settings file; and with no demand at all two equal nodes alternate for ever
  (`AntiFlap.IdleDemandsAllowPingPong`).
* A reserve pass probes two candidates, and two cannot challenge each other, so the promotion rule never displaces a
  confirmed reserve there (`ReserveSelection.TwoCandidatesNeverChallenge`). With more than two old entries the slots
  of the probe order are negative (`ReserveSelection.TooManyExistingFail`).
* A plural text beyond a gap in the indices is not written (`Lmo.WrittenTexts`, `Lmo.TextBeyondGapIsLost`).
* Setting a target service changes the catalog also when reapplying the connection then fails and the caller gets an
  error (`ServiceDeletion.SettingsStore.Set`).

## Model

| member | source | states |
|---|---|---|
| PortLocks.LocksExclude | internal/app/service.go:3958-4140 | In every run of any number of processes, with crashes, every lock a call holds is on the file its path names, and two calls never hold locks for one port |
| PortLocks.ReservationsAreDisjoint | internal/app/service.go:3958-4080 | Live reservations are even-aligned pairs inside 16000..31999, remembered by their process and pairwise disjoint |
| PortLocks.ReservationsPersist | internal/app/service.go:4082-4140 | No step of another caller, sweep or crash takes a live reservation's files away |
| PortLocks.RunKeepsInv | internal/app/service.go:3938-4140 | The invariant behind these holds in every reachable state |
| PortLocks.StepKeepsInv | internal/app/service.go:3958-4140 | Every system call of the reserve, sweep, back-out and release paths keeps it; `PortProgress` says which pairs the calls are about and what they lead to |
| PortLocks.CrashKeepsInv | internal/app/service.go:4090-4116 | A crash, which releases flocks and leaves files behind, keeps it |
| PortProgress.PortsAreNeighbours | internal/app/service.go:3970-3977 | An attempt's two ports are 16000 plus twice the start and the attempt, modulo 8000, and its neighbour, also for a negative start |
| PortProgress.AttemptsGoAround | internal/app/service.go:3970-3977 | The first attempt goes for the pair of the start, each next one for the next pair around the range |
| PortProgress.AttemptsAreDisjoint | internal/app/service.go:3970-3977 | No two of the hundred attempts share a port |
| PortProgress.GivingUpIsEarned | internal/app/service.go:3970-4031 | In every run a call that gives up was turned down on each of its hundred pairs: remembered, locked or in use |
| PortProgress.SweepClears | internal/app/service.go:4090-4116 | A sweep nobody disturbs can unlink exactly the listed files nobody holds a lock on |
| PortProgress.FreePairIsReserved | internal/app/service.go:3958-4031 | A call nobody disturbs can reserve the first pair of its hundred that its process does not remember and nobody has locked: two new locked files, both ports remembered, unlocked files gone, nothing else changed |
| PortProgress.NoFreePairGivesUp | internal/app/service.go:3958-4031 | Without such a pair it can give up with nothing changed but the unlocked files gone |
| PortProgress.GivenBack | internal/app/service.go:4118-4140 | A reservation given back under the guard can leave no file, no lock and no memory of it |
| PortProgress.GivenBackUnguarded | internal/app/service.go:4118-4131 | Without the guard it leaves the files only |
| PortProgress.FailedBindLeavesNothing | internal/app/service.go:3993-4006 | A call that cannot bind its ports, for another reason than that they are in use, can leave with all its files gone |
| CatalogValidation.ValidateCatalog | internal/domain/firewall.go:558-569 | Accepts exactly the catalogs whose non-builtin includes exist and whose include graph has no cycle, in whatever order the names are visited |
| CatalogValidation.Validator.ValidateDependencies | internal/domain/firewall.go:571-604 | The depth-first search succeeds exactly when neither the entry nor anything it includes, directly or not, is unsound or on a cycle |
| CatalogValidation.ParseDefinition | internal/domain/firewall.go:309-390 | A definition is accepted exactly when it is admissible (`ServiceMeaning.AdmissibleExactly`), and lists each first occurrence of what its selectors stand for (`ServiceMeaning.DefinitionLists`) |
| CatalogValidation.CollectSelectors | internal/domain/firewall.go:322-372 | The collecting loop rejects exactly an unreadable or self-naming selector |
| ServiceExpansion.ExpandedDomainsMeaning | internal/domain/firewall.go:474-498 | The expansion has no duplicates and holds exactly the literal domains and the domains of every service reachable from the roots |
| ServiceExpansion.ExpandedCidrsMeaning | internal/domain/firewall.go:505-527 | The same for CIDRs |
| ServiceExpansion.EmittedMeaning | internal/domain/firewall.go:606-654 | A search that remembers only its current path still emits exactly the entries reachable around that path, also on cyclic catalogs |
| ServiceExpansion.Expansion.AppendService | internal/domain/firewall.go:606-654 | The recursive walk terminates and appends the new ones of those entries in order |
| ServiceExpansion.ExpandTargetDomains | internal/domain/firewall.go:474-498 | The method computes that expansion |
| ServiceExpansion.ExpandTargetCidrs | internal/domain/firewall.go:505-527 | The method computes that expansion |
| ServiceDeletion.DependencyWalk.DependencyMatches | internal/app/service.go:2279-2305 | The dependency walk answers whether the target is reachable |
| ServiceDeletion.FindReferencingService | internal/app/service.go:2265-2277 | Finds a referrer exactly when another catalog entry reaches the target |
| ServiceDeletion.SettingsStore.Set | internal/app/service.go:2142-2179 | Refused exactly unless the definition is admissible (`ServiceMeaning.AdmissibleExactly`), the firewall accepts it and the store saves it; the new catalog, whose expansion `ServiceMeaning.SetThenExpand` gives; an error after that exactly when the active part of the firewall uses the service and reapplying fails; validity kept |
| ServiceDeletion.SettingsStore.Delete | internal/app/service.go:2187-2240 | The first failing check decides the refusal, otherwise exactly that entry is removed; validity kept |
| ServiceDeletion.SettingsStore.Run | internal/app/service.go:2142-2240 | Every catalog reached by set and delete calls is valid |
| ServiceMeaning.AdmissibleExactly | internal/domain/firewall.go:309-390 | A service can be set exactly if its name is an alias no preset has, every selector is blank, an IPv4 selector, a registered service or a host, none names the service itself, not all are blank, and the includes stay sound and acyclic |
| ServiceMeaning.DefinitionLists | internal/domain/firewall.go:322-372 | A definition lists exactly the services, hosts and IPv4 ranges its selectors stand for, by their trimmed lower-case text |
| ServiceMeaning.ServiceCanBeIncluded | internal/domain/firewall.go:343-354 | A single name that spells a registered service, in any case and padding and "telegram-web" for telegram, can be set as that service under any other free alias |
| ServiceMeaning.UnknownServiceIsRefused | internal/domain/firewall.go:356-361 | An unregistered alias without a dot is refused, whatever else is given |
| ServiceMeaning.SetThenExpand | internal/app/service.go:2142-2179 | After a successful set the service expands to exactly the hosts and IPv4 ranges among its selectors and what the services named by the others expand to |
| ServiceMeaning.TrimSpaceMeaning | internal/domain/firewall.go:697-703 | Trimming takes the white space off both ends and nothing else |
| ServiceMeaning.AliasMeaning | internal/domain/firewall.go:673-695 | An alias starts with a lower-case letter and goes on with such letters, digits and hyphens |
| ServiceDeletion.PermittedDeletionIsInvisible | internal/app/service.go:2187-2240 | A permitted deletion changes the expansion of none of the six stored selector sets |
| ServiceDeletion.RefusedExactlyWhenReached | internal/app/service.go:2187-2305 | A custom entry is refused exactly when the expander reaches it from a selector set or another entry, though the two walk different graphs |
| PresetTable.ShippedTables | internal/domain/firewall.go:59-190 | The shipped presets and family suffixes meet the hypotheses of the catalog theorems |
| PresetTable.PresetExpandsToItself | internal/domain/firewall.go:59-190 | Whatever the user's catalog holds, a shipped service expands to its own domains and CIDRs |
| PresetTable.FamilyExpandsToPreset | internal/domain/firewall.go:474-498 | A family's root domain, in any case and padding, expands to its service's list |
| OutboundSwitch.Router.TryManagedNodeSelection | internal/app/service.go:4325-4446 | Store, live tag and handlers after the switch as functions of the guards, and whether it shows an uncovered state; its entries are those of `SwitchRecords.IntentEntries` and `SwitchRecords.DoneEntries` |
| OutboundSwitch.Router.ApplyNodeSelection | internal/app/service.go:4150-4320 | Outcome, store, live tag and handlers as functions of the guards, the store as in `SwitchRecords.RecordedSwitch` and `SwitchRecords.FailedSwitch`; when persisted and live tags agree before, exactly when they agree after and exactly when every state in between is covered |
| OutboundSwitch.SelectionAgrees | internal/app/service.go:4150-4446 | Agreement after a selection: the switch was recorded, changed nothing, or failed without having had to select the current node first |
| OutboundSwitch.SelectionCovers | internal/app/service.go:4150-4446 | The end of a selection is covered exactly when its guards say so |
| OutboundSwitch.FailedSelection | internal/app/service.go:4182-4197 | A failed switch leaves the old connection, written back if that save succeeds |
| OutboundSwitch.RecordedSelection | internal/app/service.go:4282-4320 | A recorded switch names the selected node, lists it as active and has no operation left; the whole state is in `SwitchRecords.RecordedSwitch` |
| OutboundSwitch.RestoringKeepsPin | internal/app/service.go:4182-4197 | The connection written back pins its own selection exactly when a direct route comes back direct or over AmneziaWG, and another as a proxy route |
| OutboundSwitch.FailedSelectionPins | internal/app/service.go:4150-4446 | Exactly which failed selections from a settled state leave it settled |
| OutboundSwitch.UnsavedSwitchDisagrees | internal/app/service.go:4150-4320 | A run that ends in disagreement, from every settled VPN state that another node can be switched to |
| OutboundSwitch.Router.ActivateManagedDirect | internal/app/auto.go:185-230 | The same for the fail-open to direct |
| OutboundSwitch.Router.ConnectTunnel | internal/app/amneziawg.go:545-617 | The AmneziaWG switch rolls back when it cannot commit, so it always ends in agreement |
| OutboundSwitch.Router.CleanupManagedOutbounds | internal/app/service.go:1511-1547 | Exactly the due, unprotected handlers go; the list keeps the rest and what could not be removed |
| OutboundSwitch.RetiredOnlyWhenDue | internal/app/service.go:1520-1537 | A handler goes only through a due draining entry of its tag, and never while selected or named by the persisted operation |
| OutboundSwitch.ListedWithoutHandler | internal/app/service.go:1520-1547 | An entry outlives its handler exactly when it is not due and another entry of its tag is retired |
| OutboundSwitch.ReaddedTagLosesHandler | internal/app/managed_reserves.go:151-166 | A tag that is draining and a reserve at once loses its handler and keeps the reserve entry |
| OutboundSwitch.Router.SafeRemoveManagedOutbound | internal/app/managed_reserves.go:208-235 | Spares selected and listed tags, and schedules a refused removal |
| OutboundSwitch.WithOutboundAt | internal/app/service.go:4479-4497 | Updating an outbound changes the first entry of the tag only and fills its blanks from the old one |
| OutboundSwitch.SelectionKeepsReserves | internal/app/service.go:4388-4404 | A selection takes the handler of a listed reserve exactly by rejecting it as its candidate |
| OutboundSwitch.CleanupKeepsReserves | internal/app/service.go:1511-1547 | A cleanup does exactly by retiring another entry of its tag |
| OutboundSwitch.RemovalKeepsReserves | internal/app/managed_reserves.go:208-235 | A removal does exactly when it cannot read the list |
| OutboundSwitch.Router.Handle | internal/app/service.go:4150-4446 | For every request: its outcome from the guards; a failure keeps a settled route settled, and any request keeps the reserves backed, exactly under the stated conditions |
| OutboundSwitch.Router.Run | internal/app/service.go:4150-4446 | Over any run the balancer never points at a missing handler; while every step is done, declined or a failure that keeps the route settled, every crash point is covered and every request ends settled; and every listed reserve has a handler while no step takes one |
| OutboundSwitch.SecondFailedRecoveryLosesPin | internal/app/service.go:4676-4690 | Two failed recoveries from direct mode lose the pinned tag |
| OutboundSwitch.TwoFailedRecoveriesLosePin | internal/app/service.go:4325-4446 | A run from every direct fallback, two failed recoveries and a third attempt, that exposes an uncovered state |
| SwitchRecords.UpdatedEntries | internal/app/service.go:4479-4497 | Updating an outbound renews the first of its tag's entries and leaves the others, and those of every other tag, alone |
| SwitchRecords.IntentEntries | internal/app/service.go:4409-4413 | The intent lists the current node as active and the candidate as a reserve verified now |
| SwitchRecords.DoneEntries | internal/app/service.go:4437-4441 | The switched state lists the current node as draining, to retire in 300 s and be removed by 1800 s, and the candidate as active |
| SwitchRecords.RecordedSwitch | internal/app/service.go:4282-4320 | Every field and entry of a recorded selection: the mode asked for, the candidate active and verified now, the route left draining and the generation counted only if the store could be read again, the pauses of before |
| SwitchRecords.FailedSwitch | internal/app/service.go:4182-4197 | Every field and entry after a failed selection: the old connection, with the intent's or the rejection's notes only if the store could be read again; pauses of 300, 600, 1200 and 1800 s by the failures in a row |
| SwitchRecords.PausedIsNotTried | internal/app/service.go:4375-4377 | A rejected candidate is not switched to before its pause ends |
| SwitchRecords.NotHandledExactly | internal/app/service.go:4325-4372 | Which selections are left to the static reload |
| SwitchRecords.SwitchThenCleanUp | internal/app/service.go:4437-4441 | After a recorded switch a cleanup keeps the handler of the route left exactly before 300 s with no other of its entries due, or while the backend does not answer |
| SwitchRecords.RetiredByEntries | internal/app/service.go:1520-1537 | A cleanup takes a handler exactly if a draining entry of its tag is due and the tag is neither selected, nor an end of the operation, nor stuck |
| SwitchRecords.FailOpenRecords | internal/app/auto.go:205-230 | Every field after a fail-open; every active entry drains for 300 and 1800 s and no other changes |
| SwitchRecords.TunnelRecords | internal/app/amneziawg.go:580-617 | Every field and entry after an AmneziaWG switch |
| SwitchRecords.AbandonedRecords | internal/app/amneziawg.go:545-580 | What an abandoned fail-open or AmneziaWG switch leaves |
| SwitchRecords.RefusedRemovalRecords | internal/app/managed_reserves.go:222-235 | A refused removal lists the tag as draining and due at once |
| SwitchRecords.SparedTags | internal/app/managed_reserves.go:208-222 | A removal spares exactly the selected tag and the listed ones, as far as they can be read |
| ProbeHealth.UpdateHealth | internal/probe/health.go:15-67 | The field-by-field update equals one observation step |
| ProbeHealth.Counters | internal/probe/health.go:23-61 | For every history counters and streaks count it, the penalty stays in 0..20 and is 0 after twenty successes in a row |
| ProbeHealth.LatencyBounds | internal/probe/health.go:33-58 | The average stays within the latencies seen and the variation within their spread, with truncating division |
| ProbeHealth.SuccessSmooths | internal/probe/health.go:37-58 | A success moves average and variation a fifth of the way, in whole nanoseconds |
| ProbeHealth.CostIs | internal/probe/selector.go:78-120 | The cost as one sum over the history's counters, in whole nanoseconds |
| ProbeHealth.ScoreIs | internal/probe/selector.go:46-69 | The score: 10000 points up or down, less the cost in milliseconds |
| ProbeHealth.HealthyMeaning | internal/probe/health.go:24-64 | Healthy exactly when the last probe succeeded or a past success exists with a streak below the threshold |
| ProbeHealth.FailureAddsCost | internal/probe/selector.go:78-120 | One more failure at the last latency raises the positive cost, by less than twenty seconds |
| ProbeHealth.FailureLowersScore | internal/probe/selector.go:46-106 | It lowers the score exactly unless it turns an unhealthy node healthy, which takes a larger threshold |
| ProbeHealth.FailureCanRaiseScore | internal/probe/selector.go:46-69 | A history in which it raises the score |
| NodeSelection.SelectBestNode | internal/probe/selector.go:124-168 | Sorting and taking the first yields the first least-ranked node; no node at all is the only error |
| NodeSelection.BestIsCheapest | internal/probe/selector.go:145-162 | The pick is healthy if any node is and has the least known cost among its peers, so the latency ceiling decides nothing |
| AntiFlap.SwitchExactly | internal/probe/anti_flap.go:45-116 | A working node is left exactly for a confirmed candidate after the cooldown, but for one case that needs a negative improvement |
| AntiFlap.SlipsHappen | internal/probe/anti_flap.go:45-96 | That case occurs: inputs for which the worse node is taken |
| AntiFlap.ChainIsDownhill | internal/probe/anti_flap.go:100-116 | Along a chain of quality switches each cost is materially below the one before |
| AntiFlap.GeometricDecay | internal/probe/anti_flap.go:109-115 | k such steps leave at most the k-th power of 1 - RelativeImprovement of the cost |
| AntiFlap.ChainNeverReturns | internal/probe/anti_flap.go:100-116 | Along a chain every cost is at least one below the one before, so no health comes twice |
| AntiFlap.NodesNeverReturn | internal/probe/anti_flap.go:100-116 | Over one health map a chain of switches never revisits a node and is no longer than its first cost |
| AntiFlap.IdleDemandsAllowPingPong | internal/probe/anti_flap.go:100-116 | With no improvement demanded two equal nodes can alternate |
| Subscriptions.ExclusionTakes | internal/domain/settings.go:550-638 | An appended exclusion survives normalisation exactly when its key survives being split and rebuilt |
| Subscriptions.ExclusionsGrow | internal/domain/settings.go:578-638 | Excluding one more node readmits none and excludes that one |
| Subscriptions.KeyRoundTrip | internal/domain/settings.go:550-575 | Plain IDs, not blank and without a slash in the subscription's, come back from splitting their key, which therefore survives |
| Subscriptions.GeneratedIsPlain | internal/app/service.go:4856-4859 | The IDs the program makes are plain |
| AutoCommit.GeneratedAreAddressable | internal/app/service.go:4856-4859 | So the keys of all their nodes survive |
| Subscriptions.BlankBeforeSlashLosesExclusion | internal/domain/settings.go:562-605 | A whole family of IDs for which it does not survive |
| AutoSelection.EvaluateAutoSelection | internal/app/auto.go:749-841 | The evaluation with its in-place health updates equals its specification |
| AutoSelection.EvaluateAutoSelectionAll | internal/app/auto.go:615-727 | The same over all subscriptions, with owners, fallback and current subscription gathered in one loop |
| AutoSelection.Forced | internal/app/auto.go:1071-1087 | A forced failure reaches the threshold for that node and touches no other |
| AutoRecords.PassesChooseWell | internal/app/auto.go:33-41 | Every pass with a healthy candidate: a repeated winner gains one win and another starts at one; disconnected it reconnects to the candidate, and connected it leaves a working node for its optimization candidate exactly after the cooldown and with the wins demanded |
| AutoRecords.KeepsUnlessLeaving | internal/app/auto.go:821-840 | Without a reason to leave it the current node stays, as the subscription lists it; otherwise the best is taken |
| AutoRecords.FailingIsLeftAtOnce | internal/probe/anti_flap.go:45-60 | A failing or missing node is left at once for a healthy one |
| AutoRecords.OffersUntilExpiry | internal/app/auto.go:749-770 | A subscription offers its nodes that are neither excluded nor hidden, until it expires |
| AutoRecords.PassScope | internal/app/auto.go:64-82 | When a pass looks at all subscriptions, and when it has no plan |
| AutoRecords.PassStartsFrom | internal/app/auto.go:64-94 | A pass starts from the node of the state on a proxy route, and from none otherwise |
| AutoRecords.UndecidedPassDecidesNothing | internal/app/auto.go:796-806 | A pass without a healthy candidate asks for neither switch nor reconnection, clears the tracker and says whether there was a candidate |
| AutoRecords.EvaluateAllKeepsOthers | internal/app/auto.go:615-727 | An evaluation over all subscriptions drops the health of nodes none of them has and changes that of no node but the current and the probed ones |
| AutoCommit.EvaluateSettlesOnOffered | internal/app/auto.go:749-841 | Deciding again without probing never settles on a barred node, not even on the active one |
| AutoCommit.EvaluateAllSettlesOnOffered | internal/app/auto.go:615-727 | The same over all subscriptions |
| AutoCommit.UndecidedAll | internal/app/auto.go:662-699 | No decision means that no selectable node is healthy |
| AutoCommit.TryCandidates | internal/app/service.go:1194-1231 | The attempt loop follows the course of rejections, exclusions and new decisions |
| AutoCommit.CourseHolds | internal/app/service.go:1208-1230 | Along that course every tried pair stays excluded and the next decision is a new pair |
| AutoCommit.EvaluateIsSettled | internal/app/auto.go:749-841 | Every evaluation, with probing or without, settles on a node of the subscription and keeps health entries under their own ID |
| AutoCommit.EvaluateAllIsSettled | internal/app/auto.go:615-727 | The same over all subscriptions |
| AutoCommit.CommitPreparedAutoSelection | internal/app/service.go:1187-1348 | How each ending comes about, at most three attempts and one per selectable node; for settled decisions and keys that survive no pair is tried twice, and without a candidate left no selectable node is healthy; each new decision is on the state of `AutoRecords.RetryDecidesOn` |
| AutoCommit.WithKeysExcludes | internal/app/service.go:1215-1218 | After the attempts exactly the originally excluded nodes and those with a tried key are excluded |
| AutoRecords.RetryDecidesOn | internal/app/service.go:1208-1230 | A retry decides on the reloaded state with, of the rejected node, the reloaded entry, and of every other the reloaded or the known one, whichever was checked later |
| AutoRecords.FallbackFields | internal/app/service.go:1235-1252 | Every field of the state written when no candidate is left |
| AutoFallback.FallbackForgetsExactly | internal/app/service.go:1235-1252 | After a handled switch that fails, the state written when no candidate is left is the one its result would give exactly when the switch recorded neither an intent nor a pause and found a connected, consistent state without an operation |
| AutoFallback.RejectedSwitchIsForgotten | internal/app/service.go:1194-1252 | A commit composed with the switch: the only candidate fails the check of the route, the store lists it under a new generation, and the fallback takes list, generation and pauses back while the handler stays |
| AutoFallback.RejectOnlyNode | internal/app/service.go:1194-1252 | With one selectable node that is rejected, the commit ends with that state |
| AutoHealth.Service.Capture | internal/app/auto_prepare.go:68-92 | The snapshot holds the stored state and the one with cached health merged in, node by node as in `AutoRecords.CapturedIsLater` |
| AutoRecords.CapturedIsLater | internal/app/auto_state.go:50-67 | With a cache filled for the route of the stored state a capture has, of each node, the stored or the cached entry, whichever was checked later, and the cached one on a tie; without one it is the stored state |
| AutoRecords.NotedIsCaptured | internal/app/auto_state.go:69-96 | What a pass noted is what the next one captures |
| AutoRecords.SavesEveryFiveMinutes | internal/app/auto_state.go:98-117 | After a save, whatever was noted since, another is asked for exactly on a new failure reason or after five minutes |
| AutoHealth.Service.CommitHealthCheck | internal/app/auto.go:518-613 | The commit's new store and cache on every branch, the Zapret transport included |
| AutoHealth.Service.HandleZapretDecision | internal/app/auto.go:999-1029 | The Zapret branch: leaving it, saving or only remembering, and the scope saved on its own |
| AutoRecords.RecordedFields | internal/app/auto.go:896-921 | Every field of the state recorded for an applied node |
| AutoRecords.KeptFields | internal/app/auto.go:596-608 | Every field of a route that stays |
| AutoRecords.ZapretFields | internal/app/auto.go:999-1015 | Every field of a pass on the Zapret transport |
| AutoRecords.ScopeIsSaved | internal/app/auto.go:571-613 | A pass over all subscriptions saves the scope along with the rest, if both saves succeed |
| AutoHealth.Service.FinishHealthCheck | internal/app/auto.go:84-94 | The locked end of a pass commits only on a current snapshot |
| AutoHealth.PassIsAtomicUnless | internal/app/auto_prepare.go:64-160 | For every interleaving a pass changes nothing or acts as one uninterrupted pass at the commit, exactly unless it asks whether to save, on either transport, the masked reason changes the answer, and that makes a difference |
| AutoHealth.HealthCheckIsAtomicUnless | internal/app/auto.go:64-94 | The same of the program's own evaluation |
| AutoHealth.PassCanDiverge | internal/app/auto_state.go:98-117 | Worlds in which the program's pass diverges, for every policy, on the proxy route and on the Zapret transport |
| AutoHealth.CurrentKeysAgree | internal/app/auto_state.go:50-67 | A current snapshot and the commit agree on the cache key, and on the whole stored state when neither cache applies |
| AutoRuns.PlannedFollowsPolicy | internal/app/auto.go:33-41 | Every evaluation tracks from the stored tracker, tracks only its optimization candidate, switches for quality only to that candidate and only after cooldown and wins, and keeps health entries under their own ID |
| AutoRuns.TrackedIsCandidate | internal/app/auto.go:33-41 | A tracked node is the candidate of that pass and meets the optimization rule |
| AutoRuns.SwitchesAreCooldownApart | internal/app/auto.go:883-927 | Over any run with other writers in between, quality switches are at least the cooldown apart |
| AutoRuns.StoredWinsAreReal | internal/app/auto.go:542-558 | The stored count of wins never exceeds the passes since the tracker was last reset in which that node was the optimization candidate |
| AutoRuns.SwitchesAreConfirmed | internal/app/auto.go:816-840 | The node each quality switch selects was the optimization candidate of as many passes as demanded, this one included |
| AutoRuns.PlannedSwitchesAreCooldownApart | internal/app/auto.go:84-94 | The cooldown theorem for the program's own evaluation |
| AutoRuns.PlannedSwitchesAreConfirmed | internal/app/auto.go:84-94 | The confirmation theorem for the program's own evaluation |
| AutoRuns.ForgottenTrackerNeverSwitches | internal/store/migrations.go:396-427 | With a tracker that is empty at every capture and two wins or more demanded, no pass switches for quality |
| AutoZapret.QuietPassResets | internal/app/auto.go:571-579 | A pass over all subscriptions on the Zapret transport that only remembers leaves exactly the stored health in store and cache |
| AutoZapret.QuietPassRepeats | internal/app/auto_state.go:98-117 | The next pass only remembers again exactly if it stays, comes within five minutes and finds a failure reason stored |
| AutoZapret.QuietRunLearnsNothing | internal/app/auto.go:737-747 | Over any run of such passes the stored health never changes and every pass starts from it |
| AutoZapret.StreakNeverReached | internal/app/service.go:5369-5380 | In such a run a node that lacks more successes than one pass adds never has the streak that leaving the transport takes |
| ReserveRanking.PreferEquivalentDifferentSubscription | internal/app/managed_reserve_ranking.go:314-336 | The in-place rotation equals its specification |
| ReserveRanking.RankManagedReserveCandidates | internal/app/managed_reserve_ranking.go:27-64 | Scoring, sorting and rotating yield the order below |
| ReserveRanking.OrderIsSound | internal/app/managed_reserve_ranking.go:27-64 | A permutation with the best first, the rest sorted without the second slot, which keeps its tier and gives up at most 100 points |
| ReserveRanking.TiersAreInOrder | internal/app/managed_reserve_ranking.go:301-309 | Health tiers never go down along the order |
| ReserveRanking.SecondSlotIsDiverse | internal/app/managed_reserve_ranking.go:311-336 | The second slot is of another subscription whenever the tier offers one within 100 points, though the search stops early |
| ReserveRanking.OrderIgnoresInputOrder | internal/app/managed_reserve_ranking.go:39-54 | The order in which candidates are listed does not change theirs |
| ReserveRanking.OrderIgnoresSort | internal/app/managed_reserve_ranking.go:39-54 | Nor does the sort, stable or not |
| ReserveSelection.ManagedReserveProbeOrder | internal/app/managed_reserve_ranking.go:146-175 | The probe order as arranged below |
| ReserveSelection.ProbeOrderIsComplete | internal/app/managed_reserve_ranking.go:146-175 | It starts with the old reserves and loses or repeats no candidate |
| ReserveSelection.UnknownGetsItsTurn | internal/app/managed_reserve_ranking.go:160-172 | Unless old reserves take both probes, the unknown candidate of the minute is probed |
| ReserveSelection.EveryUnknownGetsATurn | internal/app/managed_reserve_ranking.go:169-171 | Within as many minutes as there are unknown candidates each has its turn |
| ReserveSelection.TooManyExistingFail | internal/app/managed_reserve_ranking.go:160-168 | The slice bound is negative exactly for more than two old entries |
| ReserveSelection.SelectManagedReserveStates | internal/app/managed_reserve_ranking.go:177-254 | The selection with its loops equals its specification, whose order and labels are those of `ReserveRecords.ReservesAreInOrder` and `ReserveRecords.EntriesSayWhy` |
| ReserveRecords.RanksAheadMeaning | internal/app/managed_reserve_ranking.go:39-54 | Known healthy nodes come first, then unknown, then known unhealthy ones; in a tier the higher score, and then the spelling of subscription, node and tag |
| ReserveRecords.ReservesAreInOrder | internal/app/managed_reserve_ranking.go:238-247 | Of two returned reserves the one that comes before the other is returned first |
| ReserveRecords.EntriesSayWhy | internal/app/managed_reserve_ranking.go:238-270 | Score and samples of each returned entry are its node's; the second reserve is there for its provider exactly if that is another than the first's; a pending candidate counts one win more than its last entry |
| ReserveRecords.PromotionExactly | internal/app/managed_reserve_ranking.go:211-237 | The first candidate that may displace one of two reserves takes the lower scored one's place exactly if its last entry counted a win, and is left pending otherwise |
| ReserveRecords.ChallengesMeaning | internal/app/managed_reserve_ranking.go:256-292 | It may if it is better by 50 points and a fifth of what the other lacks of 10000, or healthy where the other is not, or brings another provider within 100 points |
| ReserveRecords.ConfirmedFromTwoOn | internal/app/managed_reserve_ranking.go:178-183 | A candidate is confirmed from the second success in a row on |
| ReserveSelection.ChoiceIsBounded | internal/app/managed_reserve_ranking.go:193-238 | At most two reserves and one pending, all confirmed, no tag twice, and fewer than two only when no other is confirmed |
| ReserveSelection.OnlyAWinnerDisplaces | internal/app/managed_reserve_ranking.go:211-237 | One challenger at most takes the place of the lower scored, and only one that carried a win and qualifies |
| ReserveSelection.RetainedHasAll | internal/app/managed_reserve_ranking.go:193-210 | Of at most two old reserves every one confirmed again is retained, of more the first two |
| ReserveSelection.SelectionIsBounded | internal/app/managed_reserve_ranking.go:177-254 | The returned entries: at most two reserves, then at most one that awaits promotion, all successful and confirmed and verified now, no tag twice, and fewer than two only when no other is confirmed |
| ReserveSelection.OldReservesStay | internal/app/managed_reserve_ranking.go:177-254 | Of at most two old reserves each one confirmed again is returned as a reserve, except the lower scored when a candidate that won before beats it and is returned in its place beside the other |
| ReserveSelection.TwoCandidatesNeverChallenge | internal/app/managed_reserves.go:52-76 | With the two candidates a pass probes, nothing is displaced or left pending |
| ReserveSelection.SelectionIgnoresCompletionOrder | internal/app/managed_reserves.go:130-152 | The order in which workers report does not change the reserves |
| RecoveryWatch.Watch.RunConnectionWatchOnce | internal/app/scheduler.go:207-302 | After any history the fields hold its failing streak, suspect and open start, and a round starts a failover exactly when those say so |
| RecoveryWatch.StartIsConfirmed | internal/app/scheduler.go:260-282 | A failover starts only after four (egress) or two (runtime) completed failing rounds in a row on one route in one class |
| RecoveryWatch.ConfirmedFailureStarts | internal/app/scheduler.go:260-282 | So many rounds do start one, if none of them recovered and whatever came before, exactly unless one started within the retry interval |
| RecoveryWatch.StartsAreSpaced | internal/app/scheduler.go:278-301 | Starts without a healthy round or success between them are the retry interval apart |
| Protobuf.Uvarint | internal/geoiplookup/lookup.go:123-127 | The varint loop equals its specification, with the 64-bit overflow rule |
| Protobuf.VarintRoundTrip | internal/geoiplookup/lookup.go:124 | Every 64-bit value is read back from its encoding |
| Protobuf.VarintFits | internal/geoiplookup/lookup.go:124 | Nothing read exceeds 64 bits |
| Protobuf.FieldIsCutFromTheFront | internal/geoiplookup/lookup.go:123-158 | Reading a field strictly shrinks the data and stays inside it |
| Protobuf.FieldRoundTrip | internal/geoiplookup/lookup.go:123-158 | Every record is read back from its encoding |
| GeoIp.ParseCIDR | internal/geoiplookup/lookup.go:92-121 | The loop equals its specification |
| GeoIp.ParseCountry | internal/geoiplookup/lookup.go:60-90 | The loop equals its specification |
| GeoIp.LookupFile | internal/geoiplookup/lookup.go:15-58 | The loop equals its specification, whatever order addresses are visited in |
| GeoIp.CidrIsRead | internal/geoiplookup/lookup.go:92-121 | A CIDR message with fields in any order and unknown ones is read as it means |
| GeoIp.CountryIsRead | internal/geoiplookup/lookup.go:60-90 | So is a country message |
| GeoIp.LookupFindsFirstCountry | internal/geoiplookup/lookup.go:15-58 | Every address gets the first usable country in file order that covers it, and no other |
| GeoIp.MaskingIsHarmless | internal/geoiplookup/lookup.go:117-120 | Masking a prefix keeps what it contains |
| GeoAddresses.Ipv4Block | internal/geoiplookup/lookup.go:110-121 | An entry of four bytes, or of an IPv4 address mapped into sixteen, covers the IPv4 addresses that agree with it in the bits asked for, at most 32 |
| GeoAddresses.Ipv6Block | internal/geoiplookup/lookup.go:110-121 | Any other entry of sixteen bytes covers the IPv6 addresses that do, at most 128 |
| GeoAddresses.CountryCounts | internal/geoiplookup/lookup.go:41-44 | A country counts if it is not reversed and its code has two bytes without the blanks around it; the answer is in capitals |
| Lmo.Encoder.EncodeMessages | cmd/po2lmo/main.go:187-235 | Data and entries are those of the texts to write |
| Lmo.WrittenTexts | cmd/po2lmo/main.go:205-231 | Which texts are written, and that a text beyond a gap is not |
| LmoTexts.KeyLayout | cmd/po2lmo/main.go:212-218 | The bytes of a key: context and a byte 1, ID, and a byte 2 and the index in decimal |
| LmoTexts.KeysAreDistinct | cmd/po2lmo/main.go:212-218 | Messages without separators in their parts share a key only if they are the same and so is the index |
| LmoTexts.FormulaIsFound | cmd/po2lmo/main.go:237-244 | The plural formula is the rest of the first line that starts with "Plural-Forms: " |
| SuperFastHash.HashOfSettings | cmd/po2lmo/main.go:249-287 | The hash of "Settings", two blocks long; four more known hashes cover one, two and three bytes left over and high bytes |
| SuperFastHash.HashOfThree | cmd/po2lmo/main.go:249-287 | The hash of three bytes, the last one negative as a signed one |
| Lmo.TextBeyondGapIsLost | cmd/po2lmo/main.go:205-210 | A message with a gap whose last text is not written |
| Lmo.LayoutIsSound | cmd/po2lmo/main.go:187-235 | Below 2^32 bytes entries are 4-aligned, in bounds, disjoint and spell their texts |
| Lmo.Compile | cmd/po2lmo/main.go:53-90 | Data, sorted index and trailer; an empty catalog is an error |
| Lmo.Find | cmd/po2lmo/main.go:58-84 | Binary search over the written bytes finds an entry exactly when the key is there |
| Lmo.CompileAndFind | cmd/po2lmo/main.go:53-84 | For every catalog below 2^32 bytes and every hash, the reader finds exactly the stored keys, and each text whose key hash is unique |
| Lmo.Translate | cmd/po2lmo/main.go:205-287 | With the program's hash, a reader that hashes a message's key gets its text back unless that is empty, hashes like its key or shares the hash with another text |

## Left out

- HTTP probing, TLS, DNS, subscription fetching, the Xray process and OpenWrt commands: their outcomes are inputs.
- The file store is one lock and one persisted record that is read back as it was saved, which the shipped store does not do for the optimization tracker; the managed backend is a selected tag and a set of handlers. A failed select changes nothing, a rollback select succeeds when its handler is there, and a node always gets the same tag.
- Static reload, firewall, DNS and Zapret apply calls: `OutboundSwitch` reports them as not handled, and `AutoHealth` takes the state they leave as an input, as well as whether the Zapret transport may be left.
- `MaintainManagedReserves` around the selection, `tryManagedReserveFailover`, and the failover passes without probing are not part of this model; the candidates with their probe outcomes are inputs.
- Share-link, JSON, YAML, base64 and PO parsers, CLI, TUI, LuCI and HTTP panels, `PatchSettings` and its setters.
- 64-bit overflow of durations and counters, float rounding, log text and error wording.
- Text beyond Latin-1: white space and case folding cover that part of the tables only, and country codes ASCII only.
- The order of the sorted exclusion list: it is kept as a set, since it is only searched.
- Hide keywords: the nodes they match are an input of the selection rule.
- Node health without its derived score, egress address and country.
- PortProgress.FreePairIsReserved: says what a call can do while nobody else acts and its system calls succeed; that somebody acts fairly is not part of this model.
- CatalogValidation.ParseDefinition: whether a selector is an IPv4 selector or a host is an input, as it is for `ServiceMeaning`, since that is address parsing.
- ServiceDeletion.SettingsStore.Delete: whether the firewall accepts the change is an input, as it is for `Set`; the reapply that follows is only shown never to be due.
- OutboundSwitch.Router.Run: removals outside the cleanup assume a working read-back, since without one the selected handler cannot be told.
- AutoSelection.EvaluateAutoSelection: one clock reading serves a whole evaluation, where the code reads the clock several times.
- AutoHealth.PassIsAtomicUnless: compares the modelled fields of the state; the other fields take no part in the decision.
- AutoRuns.SwitchesAreCooldownApart: assumes that saves succeed and that other writers neither move the last switch back nor ahead of the clock; with `AutoRuns.SwitchesAreConfirmed` also that they keep or clear the tracker and store health under its own ID.
- AutoHealth.Service.CommitHealthCheck: what starting the Zapret fallback or a failed apply call leaves behind is an input.
- AutoCommit.CommitPreparedAutoSelection: the loops for one subscription and for all of them are one method with a scope; the Zapret fallback and the saves after the loop are not part of this model.
- ReserveRanking.RankManagedReserveCandidates: a stable insertion sort stands in for the library's sort, which `OrderIgnoresSort` justifies.
- GeoIp.LookupFile: reading the file itself, and addresses with a zone, which no prefix contains.
- Lmo.CompileAndFind: the reader is written for this project after the format, since the program only writes it.
