# Network operations engine: model and proofs

This project models the engine that derives the state of a radial distribution network, assesses and
carries out restoration after a section fault, and drives both through a scenario of seven commands
(labels N0 to N5). It proves what the engine's guards imply for whole runs and for any history of
requests. `dafny verify dfyconfig.toml` checks everything.

## How it is built

| files | what they hold |
|---|---|
| `Ids`, `Graphs`, `Trees` | identifiers and sorting; reachability by closure, simple-path search, trees by counting |
| `Configuration`, `ValidationMeaning`, `ConfigurationValidator`, `Comparison` | configuration records, their validation and what it amounts to, and their structural difference |
| `Topology`, `TopologyService`, `Energisation`, `TopologyFacts`, `TopologyMeaning` | derived network state as functions, the calculation as loops, and what it means in terms of reachability |
| `Telemetry`, `Outage`, `Derivation` | evidence age, customer consequence, topology from current telemetry |
| `Restoration`, `RestorationService`, `AssessmentMeaning`, `RestorationFacts`, `ExecutionFacts` | candidate search and permissives, what they hold the network and the evidence to, and what a PERMITTED assessment guarantees |
| `Scenario`, `Handlers` | the rows of one run and what each command does to them |
| `RunInvariant`, `RunPreservation`, `RunSteps`, `RunSafety`, `RunFacts` | the run invariant, that every command keeps it, and what it says about stored history |
| `FaultSafety`, `Delivery`, `Advertised`, `Waiting`, `Termination` | the main theorems about single runs |
| `IsolationOrder`, `Acceptance`, `Effects` | exactly when a command is accepted, in terms of the record, and exactly what it writes, logs and answers |
| `Store`, `StoreFacts`, `Histories`, `Requests` | all runs and stored results, requests as functions, theorems about histories, and what each request is answered |
| `UnitOfWork`, `CoordinatorFacts`, `Coordinator` | the tables and the coordinator as classes, each method proved against `Handlers` and `Store` |
| `Schedule`, `ScheduleSteps`, `Regression` | the formal action schedule and the bounded driver |
| `Determination` | findings, completeness and verdict |
| `Sample`, `Overload`, `ScheduledRun` | a small network, its assessment, and the formal schedule carried out on it from the empty store, which overloads a feeder |
| `Counterexamples` | runs, from the empty store on, on which an unconditional claim would be false |

A node of the distribution graph is a device or a section; a closed device is linked to the sections its
edges end on, and source-side edges are left out, so a substation never joins two feeders. The faulted
section stays in the graph: that it is dead is always a consequence of open boundary devices, never an
assumption. Time is in milliseconds of scenario time, loads are whole kilowatts.

Three facts of the code shape the statements. A FORMAL run does not check isolation again after the
reclose, so its safety holds exactly when the affected breaker does not touch the fault section. The
transferable load counts only sections of the faulted feeder, so what an execution delivers equals the
assessment exactly when no section of another feeder comes back with them. And INITIATE_FAULT is listed
without looking at the breaker, so the list of actions is exact for every other command and, for this one,
exactly when the breaker is normally closed.

## Model

| member | source | states |
|---|---|---|
| Graphs.SimplePathsExact | app/backend/ot_demo/modules/topology/service.py:251-255 | the terminating depth-first search lists a node path if and only if it is a simple path between the two nodes, and lists each one once |
| Graphs.ReachableIffSimplePath | app/backend/ot_demo/modules/topology/service.py:251-255 | a node is reachable (by closure) exactly when some simple path leads to it |
| Trees.TreeHasUniquePaths | app/backend/ot_demo/modules/topology/service.py:295-297 | in a component that is connected with one edge fewer than nodes there is at most one simple path between two nodes |
| Trees.NotTreeHasTwoPaths | app/backend/ot_demo/modules/topology/service.py:295-297 | a component that fails that count has a node with two different simple paths from any chosen root |
| Energisation.SourcePathsExact | app/backend/ot_demo/modules/topology/service.py:226-279 | a section's listed source paths are exactly the records of simple paths from feeders in service, each once, sorted by feeder, length and edge names |
| Energisation.PathEdgesJoinNodes | app/backend/ot_demo/modules/topology/service.py:256-269 | a source path's edge list pairs with its nodes: first the feeder's source edge, then for each step a closed configured edge between the two consecutive nodes |
| Energisation.EnergisedIffReachable | app/backend/ot_demo/modules/topology/service.py:87-112 | a section is energised if and only if some in-service breaker reaches it over closed switches, and its feeders are exactly those that do |
| Energisation.LiveMonotone | app/backend/ot_demo/modules/topology/service.py:54-85 | closing switches only adds energised sections and opening them only removes some |
| Energisation.RadialIffUniquePaths | app/backend/ot_demo/modules/topology/service.py:281-301 | the status is RADIAL if and only if every section has at most one simple source path over all active feeders |
| Energisation.RadialComponent | app/backend/ot_demo/modules/topology/service.py:293-300 | in a radial network one feeder at most reaches a section, and its component is a tree |
| Energisation.LoopsMean | app/backend/ot_demo/modules/topology/service.py:281-301 | a loop is reported for exactly the sections a feeder in service reaches when one of them has more than one simple source path |
| TopologyFacts.SectionsMean | app/backend/ot_demo/modules/topology/service.py:94-112 | per section: feeders, paths, energised and faulted flags in terms of reachability |
| TopologyFacts.ProofMeans | app/backend/ot_demo/modules/topology/service.py:341-387 | the isolation proof holds exactly when there is a boundary, every boundary device is proven open and no source path remains |
| TopologyFacts.OpenBoundariesIsolate | app/backend/ot_demo/modules/topology/service.py:68-72 | a section whose incident devices are all open is reached by nobody, although it stays in the graph |
| TopologyFacts.LoadsMean | app/backend/ot_demo/modules/topology/service.py:303-339 | a feeder's supplied set, completeness and load in terms of who supplies which section |
| TopologyFacts.LoadConserved | app/backend/ot_demo/modules/topology/service.py:303-339 | when the network is RADIAL every attribution is complete and supplied loads plus the load of de-energised sections equal the total configured load |
| TopologyFacts.RadialSupplyIsSingle | app/backend/ot_demo/modules/topology/service.py:293-339 | in a radial network no section is supplied by two feeders |
| TopologyService.BuildGraph | app/backend/ot_demo/modules/topology/service.py:215-224 | the edge-by-edge loop, with parallel edges collapsed, builds the specified graph |
| TopologyService.DeriveSourcePaths | app/backend/ot_demo/modules/topology/service.py:226-279 | the nested feeder, section and path loops and the final sort give the specified lists, and fail exactly when a feeder in service has no edge to its own source |
| TopologyService.DeriveRadiality | app/backend/ot_demo/modules/topology/service.py:281-301 | the scan over connected components finds exactly the improper ones |
| TopologyService.DeriveFeederLoads | app/backend/ot_demo/modules/topology/service.py:303-339 | the loop over feeders fills the specified load table: configured normal load, supplied and multiply supplied sections, load and completeness |
| TopologyService.Calculate | app/backend/ot_demo/modules/topology/service.py:41-155 | the calculation fails exactly on incomplete inputs or a missing source edge, and otherwise gives the specified result |
| TopologyMeaning.FitsIffComplete | app/backend/ot_demo/modules/topology/service.py:174-196 | the inputs are accepted exactly when every device has a state and every source an availability, nothing else is named, and the active fault is, as its record demands, among the faulted sections |
| TopologyMeaning.UnmetMeans | app/backend/ot_demo/modules/topology/service.py:226-250 | the calculation stops on a missing source edge exactly when a feeder that is in service has no edge between its breaker and its source |
| TopologyMeaning.ListsMean | app/backend/ot_demo/modules/topology/service.py:54-100 | which edges, sources and feeders are listed as configured, active and available, in terms of records and inputs |
| TopologyMeaning.PathsAscend | app/backend/ot_demo/modules/topology/service.py:270-279 | source paths are listed by feeder, the shorter first, then by their edges, none twice |
| TopologyMeaning.BoundariesMean | app/backend/ot_demo/modules/topology/service.py:341-388 | the boundary lists a device once for each of its edges to the fault section, in identifier order, and evaluates each entry on that device's own observation |
| Derivation.IsolatedMeans | app/backend/ot_demo/application/scenario_coordinator.py:1422-1464 | on derived inputs isolation is proven exactly when every boundary device is proven open: the absence of paths follows |
| Derivation.ProvenOpenEarlier | app/backend/ot_demo/application/scenario_coordinator.py:1466-1480 | isolation proven later was proven at any earlier time not before the evidence |
| Telemetry.ClassifyMeans | app/backend/ot_demo/modules/telemetry/service.py:29-66 | evidence is fresh from its timestamp to one minute after it, stale later and invalid before, and valid overall exactly when good and fresh |
| Outage.OutageMeans | app/backend/ot_demo/modules/outage/service.py:38-65 | the affected count and restored delta in terms of the sections that are and were de-energised |
| Outage.CustomerBalance | app/backend/ot_demo/modules/outage/service.py:55-65 | affected now plus restored delta equals affected before plus newly affected |
| RestorationService.DiscoverCandidate | app/backend/ot_demo/modules/restoration/service.py:259-369 | the loop over ties with early exit returns the candidate of the first tie, in identifier order, that picks anything up |
| RestorationService.AssessCandidate | app/backend/ot_demo/modules/restoration/service.py:53-237 | candidate, permissives, calculation and outcome as specified, and, on inputs derived from the run's own evidence, everything AssessmentMeaning.AssessmentSays holds it to |
| AssessmentMeaning.AlternateMeans | app/backend/ot_demo/modules/restoration/service.py:281-300 | a tie leads to the feeder on its other side exactly when one of its two sections is on the faulted feeder and the other on that feeder |
| AssessmentMeaning.CandidateIsLeast | app/backend/ot_demo/modules/restoration/service.py:259-369 | there is no candidate exactly when no tie picks anything up; otherwise its tie is the least in identifier order of those that do, and the candidate's sections, path edges, load and customers are those that tie restores |
| AssessmentMeaning.PermissivesAre | app/backend/ot_demo/modules/restoration/service.py:87-191 | each of the five permissives in terms of the evidence and of reachability: the boundary observed open, the alternate feeder in service and reaching every proposed section, the closed network radial, every monitored point good and at most a minute old, the load attributable and within capacity |
| AssessmentMeaning.AssessmentMeans | app/backend/ot_demo/modules/restoration/service.py:53-237 | BLOCKED exactly when a monitored point is not good and at most a minute old or the load cannot be attributed, REJECTED when all that is there and some requirement fails, PERMITTED when all hold, NO_CANDIDATE when no tie restores anything; with the calculation and the evidence the assessment is bound to |
| AssessmentMeaning.LoadOfSection | app/backend/ot_demo/modules/restoration/service.py:330-335 | a section counts in a transferable or supplied load for its configured load |
| AssessmentMeaning.CustomersOfSection | app/backend/ot_demo/modules/restoration/service.py:331-336 | and in a customer count for the customers of its zone |
| RestorationFacts.PermittedIsMeant | app/backend/ot_demo/modules/restoration/service.py:103-220 | a PERMITTED assessment of a well-formed network has that meaning |
| RestorationFacts.PermittedIsSafe | app/backend/ot_demo/modules/restoration/service.py:103-150 | a PERMITTED assessment's tie is open and off the fault's boundary, so closing it leaves the fault section without supply; no check of the code says so |
| ExecutionFacts.SupplyAfterClose | app/backend/ot_demo/modules/restoration/service.py:371-387 | closing a permitted tie leaves supplied sections with exactly their feeders and gives the others at most the alternate feeder |
| ExecutionFacts.NewlyIsCandidateAndStray | app/backend/ot_demo/modules/restoration/service.py:321-329 | the newly energised sections are the proposed ones and the stray ones of other feeders, disjointly |
| ExecutionFacts.ExecutionDeliversSupply | app/backend/ot_demo/modules/restoration/service.py:118-159 | after closing, the network is radial, the proposed sections have the alternate feeder alone and every other feeder supplies what it did |
| ExecutionFacts.ExecutionDeliversLoad | app/backend/ot_demo/modules/restoration/service.py:161-191 | the alternate feeder carries the assessed load plus that of stray sections, and the restored customers are the assessed ones plus the stray ones |
| ExecutionFacts.DeliveryMatchesAssessment | app/backend/ot_demo/modules/restoration/service.py:321-347 | the assessed customers are delivered if and only if nothing stray is energised; load and capacity hold exactly under the stated bound on stray load |
| ExecutionFacts.PermittedEarlier | app/backend/ot_demo/modules/restoration/service.py:89-101 | an assessment PERMITTED later is PERMITTED, with the same candidate, at any earlier time not before the evidence |
| RunSafety.StepKeepsRun | app/backend/ot_demo/application/scenario_coordinator.py:309-388 | every command keeps the run invariant, only appends to events, assessments and invalidations, and moves no time, revision or label backwards |
| RunSafety.RejectedRecord | app/backend/ot_demo/application/scenario_coordinator.py:1325-1355 | a rejection changes no run data, except that losing an assessment adds one event and one invalidation and moves time |
| RunSteps.NewKeeps | app/backend/ot_demo/application/scenario_coordinator.py:1866-1917 | a fresh run satisfies the invariant |
| RunSteps.CloseKeeps | app/backend/ot_demo/application/scenario_coordinator.py:908-983 | closing keeps the history and the invariant |
| RunSteps.BindingIffStillPermitted | app/backend/ot_demo/application/scenario_coordinator.py:2028-2046 | between assessment and execution the binding holds exactly when the current evidence is still PERMITTED; candidate and evidence cannot have changed |
| RunSteps.StillNotPermitted | app/backend/ot_demo/application/scenario_coordinator.py:1135-1190 | once the evidence no longer permits it never does again |
| FaultSafety.StepKeepsDead | app/backend/ot_demo/application/scenario_coordinator.py:594-834 | every command keeps the boundaries of the fault open from N2 on, for EXPLORATION always and for FORMAL unless it recloses a breaker that touches the fault |
| FaultSafety.FaultSectionHasNoPath | app/backend/ot_demo/application/scenario_coordinator.py:1978-2026 | in a run labelled N2 to N5 every boundary device is OPEN and the fault section has no source path at any time |
| FaultSafety.FormalRecloseKeepsDeadIff | app/backend/ot_demo/application/scenario_coordinator.py:728-740 | a reclose from N2 without a second isolation check keeps the boundaries open if and only if the affected breaker is not one of them, and energises the fault section if and only if the breaker is one and its source is available |
| FaultSafety.ExecutionIsSafe | app/backend/ot_demo/application/scenario_coordinator.py:1192-1204 | at execution the tie is OPEN and off the fault's boundary, so the boundaries stay open when it closes |
| FaultSafety.TieIsAlwaysOpen | app/backend/ot_demo/application/scenario_coordinator.py:1194-1204 | no command on a sound run is ever refused because its tie is not OPEN |
| Counterexamples.FormalRecloseFeedsTheFault | app/backend/ot_demo/application/scenario_coordinator.py:728-815 | on every FORMAL run whose breaker and one switch bound the fault, three accepted commands lead to N3 with the faulted section energised |
| Counterexamples.FormalRunTouches | app/backend/ot_demo/application/scenario_coordinator.py:126-197 | the first request of all, under a definition whose fault lies beside the breaker, starts a run to which that applies |
| Counterexamples.FormalHistoryFeedsTheFault | app/backend/ot_demo/application/scenario_coordinator.py:728-815 | four requests from the empty store leave a FORMAL run at N3 whose faulted section is energised |
| ScheduledRun.ScriptReaches | app/backend/ot_demo/modules/scenario/definition.py:25-39 | the formal schedule, sent request by request from the empty store on the sample network, is accepted in full and stands at each station in turn |
| ScheduledRun.PermittedOverloads | app/backend/ot_demo/modules/restoration/service.py:321-347 | at the end of that history the PERMITTED restoration, assessed at exactly the alternate feeder's capacity of 2 kW, has been carried out and the derived load of that feeder is 3 kW, because another feeder's dead section came back too |
| Counterexamples.OfferedButRefused | app/backend/ot_demo/application/scenario_coordinator.py:430-443 | on the EXPLORATION run the first request of all starts, INITIATE_FAULT is listed as available and then refused, because the affected breaker is normally open |
| Sample.GridIsWellFormed | app/backend/ot_demo/domain/configuration.py:87-171 | the sample network passes validation and the added hypotheses |
| Delivery.ExecutionSupplies | app/backend/ot_demo/application/scenario_coordinator.py:1192-1246 | after an accepted EXECUTE_RESTORATION the derived topology is RADIAL, supplies the proposed sections from the alternate feeder alone, leaves every other feeder's set unchanged and the fault without a path |
| Delivery.ExecutionDelivers | app/backend/ot_demo/application/scenario_coordinator.py:1192-1246 | its derived load and stored restored delta are the assessed ones plus those of stray sections, exactly the assessed ones when there are none |
| IsolationOrder.PrecedesMeans | app/backend/ot_demo/application/scenario_coordinator.py:1740-1764 | the FORMAL order is by last place in the procedure, devices it does not name after as many places as it names devices, and equal places by identifier |
| IsolationOrder.TargetMeans | app/backend/ot_demo/application/scenario_coordinator.py:1677-1738 | a boundary may be opened exactly at N1, when it is observed CLOSED on good evidence of the last minute and, in FORMAL only, comes first in procedure order among the boundaries not so observed OPEN |
| Acceptance.BreakerIsAffected | app/backend/ot_demo/application/scenario_coordinator.py:1929-1944 | the breaker a run's commands act on is that of the feeder that owns its fault section |
| Acceptance.RestoreIff | app/backend/ot_demo/application/scenario_coordinator.py:716-760 | a reclose is accepted exactly at N2 on the affected breaker with every boundary observed open and, in EXPLORATION, with the breaker open and off the boundary and a healthy section to gain |
| Acceptance.AssessIff | app/backend/ot_demo/application/scenario_coordinator.py:985-1031 | an assessment is accepted exactly at N3, or at N2 in EXPLORATION with isolation proven and no safe reclose to do first, or at N4 after the last assessment was invalidated |
| Acceptance.PermittedAgainIff | app/backend/ot_demo/modules/restoration/service.py:87-150 | what was PERMITTED once is PERMITTED at another time exactly while the boundary and every monitored point are trustworthy then |
| Acceptance.ExecuteMeans | app/backend/ot_demo/application/scenario_coordinator.py:1113-1204 | an execution is accepted exactly when it names the last assessment, PERMITTED and not invalidated, and that evidence still stands; what it is refused with otherwise |
| Acceptance.CommandAcceptedIff | app/backend/ot_demo/application/scenario_coordinator.py:309-388 | a command is accepted exactly when it names the run's revision, is not before the run's time, finds the run open, and the record meets what its kind requires |
| Acceptance.RefusedWhy | app/backend/ot_demo/application/scenario_coordinator.py:328-361 | a refused command is told the first guard that fails, revision before time before closure, or else its kind's own reason, and leaves the record as it was unless an assessment has lost its evidence |
| Effects.AcceptedEffects | app/backend/ot_demo/application/scenario_coordinator.py:409-1323 | what an accepted command of each kind leaves in every row of its run, the entries it logs with their number, time, revision, command and actor, and what its answer reports |
| Effects.LossWrites | app/backend/ot_demo/application/scenario_coordinator.py:1135-1190 | what losing an assessment writes: the run's time, one entry, and the invalidation that points to it |
| Advertised.AdvertisedIffAccepted | app/backend/ot_demo/application/scenario_coordinator.py:1482-1675 | at the current revision and time a fresh command is accepted if and only if a listed action offers it, with INITIATE_FAULT also needing a normally closed breaker |
| Advertised.OfferedMeans | app/backend/ot_demo/application/scenario_coordinator.py:1482-1675 | what the list of actions offers, command by command |
| Waiting.WaitingNeverEnables | app/backend/ot_demo/application/scenario_coordinator.py:1014-1020 | a command accepted at some time is accepted at every earlier time not before the run's own |
| Waiting.RecloseIff | app/backend/ot_demo/application/scenario_coordinator.py:1978-2026 | the reclose gate depends on time only through the isolation evidence: breaker open and off the boundary, boundaries proven open, something to gain |
| Waiting.TargetEarlier | app/backend/ot_demo/application/scenario_coordinator.py:1677-1738 | an isolation target available later is available earlier, in both modes |
| Termination.StepDecreases | app/backend/ot_demo/application/scenario_coordinator.py:409-1279 | every accepted command strictly decreases what the run can still accept; rejections leave it |
| Termination.RemainingAtStart | app/backend/ot_demo/application/scenario_coordinator.py:409-1279 | at N0 that is at most seven and one for each closed boundary other than the breaker; at N1 six and one for each |
| RunFacts.StoredOutageIsCurrent | app/backend/ot_demo/application/scenario_coordinator.py:1357-1377 | one topology and one outage per revision from 0 to the current one, and the stored outage equals recomputation from current telemetry at any time |
| RunFacts.AffectedIsPeakLessRestored | app/backend/ot_demo/application/scenario_coordinator.py:476-483 | the affected count is the highest ever stored less the sum of all restored deltas |
| RunFacts.StepAccounts | app/backend/ot_demo/application/scenario_coordinator.py:648-655 | every accepted command accounts for customers as its kind does: trip and isolation restore nobody, reclose and tie-close newly affect nobody, the others leave outages alone |
| RunFacts.InvalidationIsFinal | app/backend/ot_demo/application/scenario_coordinator.py:1121-1190 | at most two assessments, all but the last invalidated; evidence lost at most once and nothing PERMITTED after it; in a closed run each assessment invalidated exactly once |
| StoreFacts.ApplyKeeps | app/backend/ot_demo/application/scenario_coordinator.py:126-388 | every request keeps the store invariant: one open run at most, every run sound with its fault dead, every name in use stored |
| Histories.RefusedOrStored | app/backend/ot_demo/application/scenario_coordinator.py:2094-2134 | a refused request leaves every table as it was; an answered one stores its result for good |
| Requests.UsedIdentifier | app/backend/ot_demo/application/scenario_coordinator.py:2094-2134 | a request under a used command identifier changes nothing: the same content is answered with the stored result, other content is refused as reuse |
| Requests.ReuseIsRefused | app/backend/ot_demo/application/scenario_coordinator.py:2094-2106 | and that refusal holds at every later point of every history |
| Requests.Misaddressed | app/backend/ot_demo/application/scenario_coordinator.py:315-327 | a command sent to another run than it names, or to none, is refused and changes nothing |
| Requests.CommandAnswered | app/backend/ot_demo/application/scenario_coordinator.py:309-388 | a fresh command for a stored run is accepted exactly under the run's guards and its kind's requirement; one that is refused is told the first failing guard and leaves every run as it was |
| Requests.ExecuteAnswers | app/backend/ot_demo/application/scenario_coordinator.py:1281-1355 | the stored answer reports the prior and current revision, the status, the new entries and assessments, and the run as it is now |
| Requests.InitialiseAnswers | app/backend/ot_demo/application/scenario_coordinator.py:126-197 | a first run is refused while one is open, then for the first unmet demand on version, fault section and devices, and is otherwise a fresh run on the selected section |
| Requests.ReplacementAnswers | app/backend/ot_demo/application/scenario_coordinator.py:199-296 | a replacement is refused without an open run, for an unmet demand, or for a run of another build, and otherwise closes the open run and starts a fresh one |
| Requests.NextIs | app/backend/ot_demo/application/scenario_coordinator.py:298-307 | the next run replaces the open one when there is one |
| Requests.ResetStarts | app/backend/ot_demo/application/scenario_coordinator.py:836-906 | an accepted reset closes the run, invalidating an assessment that still stands, and starts a fresh run from the same mode, fault, initial time and build |
| Requests.NewIsFresh | app/backend/ot_demo/application/scenario_coordinator.py:1866-1917 | a fresh run observes every device in its normal state and every source as it normally is, stores one snapshot pair and logs four entries |
| Requests.SnapshotAgrees | app/backend/ot_demo/application/scenario_coordinator.py:1357-1420 | a snapshot's outage names exactly the sections its topology shows without supply, its evidence is valid exactly when trustworthy, and its actions offer exactly what would be accepted |
| Histories.ReplayReturnsStored | app/backend/ot_demo/application/scenario_coordinator.py:2094-2134 | replaying an answered request at any later point returns the stored result and changes nothing |
| Histories.ReplaysDoNotMatter | app/backend/ot_demo/application/scenario_coordinator.py:326-329 | a history with duplicates ends in the same store as the history without them |
| Histories.DuplicateCanBeDropped | app/backend/ot_demo/application/scenario_coordinator.py:326-329 | a second copy of an answered request can be dropped wherever it stands |
| Histories.RunsMoveForward | app/backend/ot_demo/application/scenario_coordinator.py:836-983 | over any history logs only grow, nothing goes backwards and a closed run never changes again |
| Histories.AcceptedAreBounded | app/backend/ot_demo/application/scenario_coordinator.py:309-388 | over any history a run accepts no more commands than it could still accept at the start |
| Histories.RunsTerminate | app/backend/ot_demo/application/scenario_coordinator.py:409-1279 | a run seen at N0 accepts at most seven commands and one for each closed boundary other than its breaker |
| Histories.EveryLogIsInOrder | app/backend/ot_demo/application/scenario_coordinator.py:1836-1864 | after any history from the empty store every run's events are numbered from one without gaps, in order of time and revision, none ahead of its run |
| Histories.EveryRunIsSafe | app/backend/ot_demo/application/scenario_coordinator.py:126-388 | after any history from the empty store: one open run at most, and in every run labelled N2 to N5 the fault is bounded by open devices and has no source path, unless FORMAL reclosed a breaker touching it |
| UnitOfWork.ScenarioUnitOfWork.GetMutableRun | app/backend/ot_demo/infrastructure/scenario_repository.py:81-86 | the scan from the newest row finds the open run, if there is one |
| UnitOfWork.ScenarioUnitOfWork.InsertRun | app/backend/ot_demo/infrastructure/scenario_repository.py:136-148 | adds one row; key and single-open-run index are preconditions |
| UnitOfWork.ScenarioUnitOfWork.UpdateRun | app/backend/ot_demo/infrastructure/scenario_repository.py:150-166 | replaces one run's row and nothing else |
| UnitOfWork.ScenarioUnitOfWork.PutTelemetry | app/backend/ot_demo/infrastructure/scenario_repository.py:224-247 | upserts one point of one run and nothing else |
| UnitOfWork.ScenarioUnitOfWork.InsertEvents | app/backend/ot_demo/infrastructure/scenario_repository.py:350-384 | appends events; their sequence numbers must be free |
| UnitOfWork.ScenarioUnitOfWork.InsertDerivedSnapshots | app/backend/ot_demo/infrastructure/scenario_repository.py:415-429 | adds the two snapshots of a revision that has none |
| UnitOfWork.ScenarioUnitOfWork.InsertAssessment | app/backend/ot_demo/infrastructure/scenario_repository.py:463-486 | appends an assessment with a free identifier and sequence |
| UnitOfWork.ScenarioUnitOfWork.InsertInvalidation | app/backend/ot_demo/infrastructure/scenario_repository.py:510-530 | appends an invalidation of an assessment that has none |
| UnitOfWork.ScenarioUnitOfWork.UpdateAlarm | app/backend/ot_demo/infrastructure/scenario_repository.py:281-295 | overwrites the alarm with the given identifier |
| UnitOfWork.ScenarioUnitOfWork.InsertCommandResult | app/backend/ot_demo/infrastructure/scenario_repository.py:116-134 | stores a result under an unused command identifier |
| UnitOfWork.ScenarioUnitOfWork.Rollback | app/backend/ot_demo/infrastructure/scenario_repository.py:57-68 | puts every table back as it was saved |
| Coordinator.ScenarioCoordinator.Execute | app/backend/ot_demo/application/scenario_coordinator.py:309-388 | one command in one transaction does exactly what the specification says, unless it passes a stage at which a failure is injected, and then every table is as before |
| Coordinator.ScenarioCoordinator.Initialise | app/backend/ot_demo/application/scenario_coordinator.py:126-197 | the same for initialisation |
| Coordinator.ScenarioCoordinator.InitialiseReplacementRun | app/backend/ot_demo/application/scenario_coordinator.py:199-296 | the same for replacing the open run |
| Coordinator.ScenarioCoordinator.InitialiseNextRun | app/backend/ot_demo/application/scenario_coordinator.py:298-303 | the same for either of the two |
| Coordinator.ScenarioCoordinator.InitiateFault | app/backend/ot_demo/application/scenario_coordinator.py:409-531 | row by row, the trip writes exactly the specified record of its run |
| Coordinator.ScenarioCoordinator.AcknowledgeAlarm | app/backend/ot_demo/application/scenario_coordinator.py:533-592 | the same for the acknowledgement |
| Coordinator.ScenarioCoordinator.OperateIsolationDevice | app/backend/ot_demo/application/scenario_coordinator.py:594-714 | the same for one isolation step |
| Coordinator.ScenarioCoordinator.RestoreNormalSource | app/backend/ot_demo/application/scenario_coordinator.py:716-834 | the same for the reclose |
| Coordinator.ScenarioCoordinator.AssessRestoration | app/backend/ot_demo/application/scenario_coordinator.py:985-1111 | the same for an assessment |
| Coordinator.ScenarioCoordinator.ExecuteRestoration | app/backend/ot_demo/application/scenario_coordinator.py:1113-1279 | the same for the tie-close and for losing the assessment |
| Coordinator.ScenarioCoordinator.ResetRun | app/backend/ot_demo/application/scenario_coordinator.py:836-906 | the old run is closed and a clean one started in the same transaction |
| Coordinator.ScenarioCoordinator.CloseAndPreserve | app/backend/ot_demo/application/scenario_coordinator.py:908-983 | closing writes the specified record and keeps the history |
| Coordinator.ScenarioCoordinator.PutNormalTelemetry | app/backend/ot_demo/application/scenario_coordinator.py:1899-1917 | the loop over devices leaves exactly the normal telemetry |
| Coordinator.ScenarioCoordinator.SnapshotOfRun | app/backend/ot_demo/application/scenario_coordinator.py:390-396 | the projection shown for a stored run, and none for an unknown one |
| Coordinator.ScenarioCoordinator.Derive | app/backend/ot_demo/application/scenario_coordinator.py:1422-1464 | on a sound run's rows the derivation cannot fail and gives the specified topology and outage and the validity of every point |
| Schedule.OutcomeWithinAMinute | app/backend/ot_demo/modules/scenario/definition.py:25-39 | until one minute after the run began waiting changes no assessment outcome |
| Schedule.FirstComesFirst | app/backend/ot_demo/application/scenario_coordinator.py:1740-1764 | the formal procedure puts SW-A12 before SW-A23 among the boundaries |
| Schedule.TargetsOnSchedule | app/backend/ot_demo/application/scenario_coordinator.py:1677-1703 | the next formal target is SW-A12 while it is closed, then SW-A23 |
| ScheduleSteps.ScheduledIsAccepted | app/backend/ot_demo/modules/scenario/definition.py:25-39 | the offered command of each station is accepted at its scheduled time |
| ScheduleSteps.ScheduledLands | app/backend/ot_demo/modules/scenario/definition.py:25-39 | and leads to the next station of the schedule |
| ScheduleSteps.FreshRunIsOnSchedule | app/backend/ot_demo/application/scenario_coordinator.py:1866-1897 | a fresh FORMAL run on a network bounded by the two switches stands at the start of the schedule |
| Regression.RunRegression | app/backend/ot_demo/application/investigation_service.py:321-376 | from any station of the schedule the twelve-turn loop reaches N5, or stops at N4 because the assessment there is not PERMITTED; it never exceeds its turns |
| Regression.ExecuteAvailable | app/backend/ot_demo/application/investigation_service.py:630-672 | one turn advances by one station and touches no other run |
| ScheduledRun.DriveSample | app/backend/ot_demo/application/investigation_service.py:321-376 | from an empty store the driver starts the sample network's FORMAL run and takes it to N5 |
| Determination.CompleteIffPermutation | app/backend/ot_demo/modules/validation/determination.py:589-625 | COMPLETE if and only if the findings are a permutation of the required criteria and none is NOT_EVALUATED |
| Determination.PassIffAllSatisfied | app/backend/ot_demo/modules/validation/determination.py:641-645 | with complete findings the verdict is PASS if and only if every criterion is satisfied |
| Determination.ResultsAreEarned | app/backend/ot_demo/modules/validation/determination.py:634-645 | over any history findings are only added, one per criterion, and a result is final and carries the verdict of complete findings |
| Determination.NotEvaluatedIsFinal | app/backend/ot_demo/modules/validation/determination.py:393-470 | once a finding is NOT_EVALUATED no later evaluation, review or finalisation completes the context |
| Determination.DeterminationRows.EvaluateMachineCriteria | app/backend/ot_demo/modules/validation/determination.py:393-470 | the loop commits exactly the specified findings, also when it stops half-way, and each carries the status its sources earn |
| Determination.EvaluationAdds | app/backend/ot_demo/modules/validation/determination.py:393-470 | an evaluation adds findings for the pending criteria in order, SATISFIED exactly for one value that matches, NOT_SATISFIED for one that differs, NOT_EVALUATED for none or several, up to the first criterion that is repeated, unreadable or closed by a result |
| Determination.EveryFindingIsBacked | app/backend/ot_demo/modules/validation/determination.py:393-587 | over any history every finding has the status its sources earned in some evaluation, or the one an independent reviewer gave to what somebody else had proposed on evidence before |
| Determination.PassIsBacked | app/backend/ot_demo/modules/validation/determination.py:634-645 | a PASS reached from an empty context is backed in that way criterion by criterion |
| Determination.ProposedIff | app/backend/ot_demo/modules/validation/determination.py:472-530 | a proposal is recorded exactly when a graduate engineer makes it on evidence for a review criterion that has none, before the result |
| Determination.ReviewFinalisedIff | app/backend/ot_demo/modules/validation/determination.py:532-587 | a review is finalised exactly when an independent reviewer other than the proposer gives it, once, and adds that reviewer's verdict |
| Determination.ResultFinalisedIff | app/backend/ot_demo/modules/validation/determination.py:634-705 | a result is stored exactly on complete findings and evidence, once, and is PASS exactly when all are satisfied |
| Comparison.EmptyIffEqual | app/backend/ot_demo/infrastructure/configuration_comparison.py:46-63 | no difference is reported exactly when there is none |
| Comparison.PatchGivesAfter | app/backend/ot_demo/infrastructure/configuration_comparison.py:46-63 | applying the reported differences to the first value gives the second, null fields counting as absent |
| Comparison.DifferencesMean | app/backend/ot_demo/infrastructure/configuration_comparison.py:46-63 | the reported differences are exactly the first places where the two values part, with what stands on either side and null for an absent field |
| Comparison.DifferencesInOrder | app/backend/ot_demo/infrastructure/configuration_comparison.py:46-63 | they ascend in their paths, each place reported once |
| Comparison.NoDifferenceIffSameContent | app/backend/ot_demo/infrastructure/configuration_comparison.py:27-43 | configurations compare without differences exactly when their values agree and each collection holds the same records in some order |
| Comparison.DifferenceList.Compare | app/backend/ot_demo/infrastructure/configuration_comparison.py:46-63 | the recursion appends exactly the specified differences, with full paths, to the shared list |
| ConfigurationValidator.Validate | app/backend/ot_demo/domain/configuration.py:87-171 | accepts exactly the configurations that satisfy every rule, which are exactly the consistent ones |
| ValidationMeaning.ValidatedIffConsistent | app/backend/ot_demo/domain/configuration.py:42-171 | the rules, with their counters and identifier sets, accept exactly the configurations whose records fit together: no shared identifier, feeders complete, all but ties owned, every edge joining a device to a terminal, two edges at every device, one zone with customers at every section |
| ConfigurationValidator.CountIncidence | app/backend/ot_demo/domain/configuration.py:138-155 | one walk over the edges rejects exactly when some edge does not join one device to one terminal, and otherwise counts each device's edges |
| Configuration.DeviceEdges | app/backend/ot_demo/domain/configuration.py:138-155 | a validated device has exactly two configured edges |

## Left out

- ExecutionFacts.DeliveryMatchesAssessment: the code compares only sections of the faulted feeder with capacity, so the delivered load can exceed the assessed one; the lemma gives the exact condition on stray sections instead of the unconditional claim, and ScheduledRun.PermittedOverloads a history on which it fails.
- FaultSafety.StepKeepsDead: carries the exception for a FORMAL reclose of a breaker that touches the fault, because the code does not check isolation again there; FormalRecloseKeepsDeadIff gives the exact condition.
- Advertised.AdvertisedIffAccepted: carries the condition that the affected breaker is normally closed, because the list of actions does not look at it; OfferedButRefused shows it is needed.
- Regression.RunRegression: the action with the least key is taken from a list ordered by target or alarm number, not by the text of an alarm's identifier; on the schedule there is only one. Checkpoint capture and the linked defect, correction and repeat records are left out.
- Regression.ExecuteAvailable: takes the least action of the same list.
- TopologyService.DeriveRadiality: returns the improper components as a set of sets where the source sorts them into tuples.
- RestorationService.AssessCandidate: leaves out the loading percentage, the reason codes and the evidence rows of an assessment; nothing is decided by them.
- Determination.DeterminationRows.EvaluateMachineCriteria: takes the resolved source records and their comparison with the expected values as inputs.
- Coordinator.ScenarioCoordinator.Execute: an event keeps its kind, entity, alarm, assessment, command and actor; its source, description, previous and new value are left out, here and in every method below.
- Coordinator.ScenarioCoordinator.Initialise: leaves out the same parts of its events.
- Coordinator.ScenarioCoordinator.InitialiseReplacementRun: leaves out the same parts of its events.
- Coordinator.ScenarioCoordinator.InitialiseNextRun: leaves out the same parts of its events.
- Coordinator.ScenarioCoordinator.InitiateFault: leaves out the same parts of its events.
- Coordinator.ScenarioCoordinator.AcknowledgeAlarm: leaves out the same parts of its events.
- Coordinator.ScenarioCoordinator.OperateIsolationDevice: leaves out the same parts of its events.
- Coordinator.ScenarioCoordinator.RestoreNormalSource: leaves out the same parts of its events.
- Coordinator.ScenarioCoordinator.AssessRestoration: leaves out the same parts of its events.
- Coordinator.ScenarioCoordinator.ExecuteRestoration: leaves out the same parts of its events.
- Coordinator.ScenarioCoordinator.ResetRun: leaves out the same parts of its events.
- Coordinator.ScenarioCoordinator.CloseAndPreserve: leaves out the same parts of its events.
- Configuration.WellFormed: adds to the validator's rules that every feeder breaker meets its own source, that only feeder breakers meet sources and that capacities are positive; the services rely on all three.
- Rules on the shape of single configuration records (non-empty lists and names, the syntax of identifiers) are not modelled.
- Results are keyed by identifier (maps and sets) where the source returns tuples sorted by identifier; boundary lists, source paths, events, alarms and actions keep their order.
- Digests (SHA-256) and name-based identifiers (uuid5) stand for the content they are computed from, and a random identifier (uuid4) for the command that drew it; an event is named by its run and sequence number.
- Reason strings, event descriptions, event sources, previous and new values, and evidence reason codes are not modelled; reason codes of command results and outcomes are.
- The loading percentage of a capacity calculation (a rounded decimal shown to the reader) is not modelled; nothing is decided by it.
- Mismatch errors between configuration identities cannot arise when one loaded configuration is passed throughout, and are not modelled.
- SQL text, JSON and Pydantic serialisation, migrations and file hashing: tables are maps and sequences, keys and uniqueness constraints are preconditions, rollback restores every table.
- The recorded comparisons of replayed commands and the list of a run's command results are not modelled.
- In the determination, resolving a source record and normalising a value are inputs (found values and whether they match); proposals need a given answer to whether evidence exists; storing the validation result checks only that none stands yet.
- Comparison.NoDifferenceIffSameContent: is stated for configurations with the same value and collection names, which the record type guarantees.
- Workspace projection, evidence export, HTTP routes, hosted composition, browser reset, the catalogue and registries, and the user interface are not modelled.
