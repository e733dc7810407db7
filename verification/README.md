# Lifeline, modelled and proved in Dafny

Lifeline is a static analyser for Go. It compiles function bodies to control-flow graphs, asks
path, cycle, ordering and counting questions about them, solves interprocedural summaries by
fixed point, and schedules packages in dependency-first waves. This project models that core and
proves what its answers mean. `dafny verify dfyconfig.toml` checks all of it.

## How the pieces fit

* `Graph`, `Components`, `Verdict`: the graph queries, Tarjan's algorithm and the loop verdict, as
  loops over explicit stacks, with exact contracts.
* `Syntax` (with `Semantics`): a statement datatype for the control flow the builder knows, and a
  machine that executes it. A machine state is a continuation: what is left to do. `break`,
  `continue` and `fallthrough` unwind it, `goto` replaces it, unknown conditions and the case taken
  are free choices. It follows the sections "Break statements", "Continue statements", "Goto
  statements", "Fallthrough statements", "Switch statements" and "Select statements" of The Go
  Programming Language Specification, and shares nothing with the builder.
* `Building` says what each builder step does to the builder's state; `Compiler` is the builder
  itself, a class whose methods update blocks, current block, frames, labels and call sites in
  place and are proved to do just that. `Closing`, `Shapes`, `Steps`, `Simulation` and
  `Bisimulation` lead up to the compiler theorem in `Correctness`: machine and graph make the same
  moves in the same order, forever. `Termination` and `Trust` carry the loop verdict over to
  executions, `CallSites` the recorded call positions; `Choices` says, for machine and graph apart,
  which ways conditions, switches and loops offer; `Limits` holds the bodies that are legal Go and
  not translated faithfully.
* `Merging`, `Splitting` and `MergedBuild` follow two builders in step over the same body, one
  trusting calls, the other not. `TrustedGraph` concludes that merging blocks back at the trusted
  calls turns one graph into the other, and reads reachability and the loop verdict off that.
* `Dataflow` and `Lattices`: the worklist solver and the stop-capability analysis read over paths.
* `Obligation` and `StopOrdering`: path queries, read on runs with deferred calls run last-in
  first-out at return (section "Defer statements" of the same specification).
* `GroupBalance`, `GroupWalker`, `GroupRounds`: WaitGroup accounting against executions.
  `GroupCounts` reads what the walk finds off the body, with no walk; `GroupRuns` shows that the
  executions exist.
* `Effects`, `EffectOrder`, `Receiver`, `Alias`: the three interprocedural fixed points.
* `Levels` and `Waves`: the level sort, and the wave scheduler as a state machine over every
  interleaving.

`go/ast` and `go/types` are replaced by these datatypes, object identities by numbers. What the
syntactic recognisers find (call sites, which call is a panic or trusted, constant conditions,
which worker calls Done, which package imports which) is input here.

## Where the code and its own documentation differ

The model follows the code; these are the places where a documented promise fails and what holds
instead.

* `fallthrough` is documented as valid only as a clause's last statement (cfg.go:689-692). The
  language allows empty statements after it and labels on it; the builder then leaves the switch
  (`Limits.FallthroughBeforeEmpty`, and `Limits.FallAgreesIff` for exactly which clauses agree).
  Execution goes on with the next clause all the same: `Limits.ClauseFalls` and
  `Limits.ClauseLeaves` set the two side by side.
* Blank labels may be repeated in Go, but share one block (`Limits.BlankLabelTwice`). Unique labels
  and placed fallthroughs are the condition of the compiler theorem (`Syntax.WellFormed`). It is
  not necessary for every single body: in dead code either defect goes unnoticed.
* A trusted call is described as a branch that leaves everything else as it is (cfg.go:396-407). If
  a blank label is repeated, its block can be entered again after a trusted call has cut it, and
  ends with three edges: then no merging of blocks gives the structural graph
  (`TrustedGraph.RepeatedLabelSplits`). With unique labels `TrustedGraph.TrustMerges` gives it.
* An in-block index comparison is called necessary and sufficient for "stop after wait"
  (frontend.go:8405-8410). It is sufficient; `StopOrdering.LaterWaitHidesEarlier` shows a stop that
  always follows a wait and is not proven to, and the contract of
  `StopOrdering.StopProvenAfterWait` says exactly when that happens.
* Two deferred calls are ordered by their registration on every path (frontend.go:6825-6832). If a
  loop registers the stop again after the Wait, the stop runs first after all:
  `StopOrdering.LoopStopsFirst` is such a graph. `StopOrdering.RepeatedRegistration` and
  `StopOrdering.LastRegistration` say on which graphs the order holds.
* Round accounting counts `defer wg.Add(n)` where it is registered, so it can report a Wait that
  does not block (`GroupRounds.DeferredAddMisreported`), and it never looks at initialisers and
  post statements, which may call Add or Done (`GroupBalance.HeaderAddMissed`).
  `GroupRounds.MismatchBlocks` says in which executions a reported Wait blocks; if no header acts
  on the group and no Add is deferred, it is all of them (`GroupRounds.ReportedWaitBlocks`).
* Callers' effects are said to derive monotonically from callees' (frontend.go:2320-2323). A
  hand-off outranks a call, so they do not (`EffectOrder.NotMonotone`), and the recorded summaries
  can depend on the order of declaration (`EffectOrder.DeclarationOrderShows`). For monotone
  evaluations they cannot (`Effects.OrderDoesNotShow`); stability holds regardless.
* The alias pass is said to end within as many passes as there are bindings (frontend.go:3257-3259).
  Two cancels that alias each other, one of them active, take three (`Alias.ThreePasses`); one more
  pass than bindings always suffices, and `Alias.AsManyPasses` says when the documented bound holds.
* A stop point is described as a block with an edge straight to the exit
  (dataflow_lattices.go:124-128); the code asks only for the edge's kind, and so does the model.

## Model

| member | source | states |
|---|---|---|
| Graph.Reachable | internal/model/model.go:251-265 | returns exactly the blocks at which some walk from the start ends |
| Graph.CanReach | internal/model/model.go:270-284 | following predecessor lists backwards finds exactly the blocks from which a walk leads to the target, given that the lists mirror the edges |
| Graph.ReachableAvoiding | internal/model/model.go:304-306 | exactly the blocks reached without entering an avoided block, and none if the start is avoided |
| Graph.ReachableAvoidingEdges | internal/model/model.go:313-332 | the same, additionally without taking a skipped edge |
| Components.Finder.StrongConnect | internal/model/model.go:348-384 | one call of Tarjan's recursion keeps the whole invariant: index and low values, what the stack holds, which components are complete |
| Components.SCCs | internal/model/model.go:339-393 | every block is in exactly one component, two blocks share one iff each reaches the other, and edges between components lead only to components emitted earlier |
| Components.ReverseTopological | internal/model/model.go:339-393 | a whole walk never leads from a component to one emitted later |
| Verdict.IsPersistentSCC | internal/model/model.go:400-413 | true iff the component's blocks lie on a cycle, self-loops included |
| Verdict.WayOut | internal/engine/cfg_verdict.go:52-58 | a cyclic component has an edge out to a block that can exit iff its own blocks can reach the exit |
| Verdict.SummarizeTermination | internal/engine/cfg_verdict.go:36-62 | lists exactly the reachable cyclic blocks, by whole components and each once, a component marked resolved iff its blocks reach the exit |
| Verdict.UnresolvedLoop | internal/engine/cfg_verdict.go:86-93 | true iff some reachable block lies on a cycle and cannot reach the exit |
| Building.Build | internal/cfg/cfg.go:184-210 | for every body, block IDs are indices, edges stay in range and sit at their source, predecessor lists are the exact multiset of edge sources, nothing enters the entry and nothing leaves the exit |
| Compiler.Builder.PreAllocateLabels | internal/cfg/cfg.go:256-269 | the traversal gives every label its block in the order in which labels are met |
| Compiler.Builder.ResolveBreak | internal/cfg/cfg.go:271-279 | the loop over the frame stack finds the innermost frame that is unlabelled-for or carries the label |
| Compiler.Builder.ResolveContinue | internal/cfg/cfg.go:281-292 | the same among loop frames only |
| Compiler.Builder.SimpleStmt | internal/cfg/cfg.go:388-432 | records its calls, emits one instruction, and ends in a panic edge, a trusted-call branch or neither |
| Compiler.Builder.Statement | internal/cfg/cfg.go:309-386 | updates the builder in place to the state the specification compiles the statement to, for every statement form |
| Compiler.Builder.IfStmt | internal/cfg/cfg.go:504-539 | branches, joins and constant conditions leave the specified blocks and edges |
| Compiler.Builder.ForStmt | internal/cfg/cfg.go:541-592 | header, body, post and after blocks, their edges and the loop frame are as specified |
| Compiler.Builder.SwitchCaseBodies | internal/cfg/cfg.go:693-719 | clause after clause, with a closing fallthrough entering the next clause's block |
| Compiler.Builder.SelectStmt | internal/cfg/cfg.go:721-742 | one clause block after the other, each left for the block after the select |
| Compiler.BuildGraph | internal/cfg/cfg.go:109-126 | the imperative builder returns the specified graph and call sites, so the theorems below are about its output |
| Bisimulation.FindAgrees | internal/cfg/cfg.go:256-269 | searching the body for a label yields code that is anchored at the block preallocated for it, or correctly finds none |
| Bisimulation.AllMoves | internal/cfg/cfg.go:309-772 | at every anchored point the machine's moves and the graph's are the same in number, order, event and target |
| Correctness.ExecutionWalks | internal/cfg/cfg.go:309-772 | every execution is shown, event by event, by a walk of the graph that ends at the matching place |
| Correctness.WalkExecutes | internal/cfg/cfg.go:309-772 | every walk is an execution: the graph adds no path the body does not have |
| Correctness.CompilerCorrect | internal/cfg/cfg.go:309-772 | for every well-formed body and trust predicate, the event sequences of executions from the start are exactly those of walks from the entry, and an execution has ended (falling off, return, panic, trusted stop) iff the walk is at the exit |
| Choices.SwitchMoves | internal/cfg/cfg.go:647-658 | executing a switch enters any of its clauses, in order, and passes by it exactly if no clause, wherever it stands, is the default |
| Choices.SwitchEdges | internal/cfg/cfg.go:647-658 | the head of a compiled switch has an edge to every clause's block, and a normal edge to the block after exactly if no clause is the default |
| Choices.IfMoves | internal/cfg/cfg.go:504-539 | executing an if with a constant condition goes only that way, with an unknown one either |
| Choices.IfEdges | internal/cfg/cfg.go:504-539 | the head of a compiled if has a true edge unless the condition is constantly false, and a false edge unless it is constantly true |
| Choices.LoopEdgesAllowed | internal/cfg/cfg.go:541-592 | a compiled loop's header enters the body and leaves it as its condition allows; without a condition it only enters |
| Limits.FaithfulIsWellFormed | internal/cfg/cfg.go:689-692 | a concrete body with a label, a goto and a fallthrough is within the theorem's condition |
| Limits.FallthroughBeforeEmpty | internal/cfg/cfg.go:703-717 | a concrete body whose fallthrough is followed by an empty statement executes a trace the graph does not have |
| Limits.BlankLabelTwice | internal/cfg/cfg.go:256-269 | a concrete body with two blank labels executes a trace the graph does not have |
| Limits.FallsThroughIff | internal/cfg/cfg.go:703-709 | a clause is treated as falling through iff its last statement is its first bare fallthrough |
| Limits.FallAgreesIff | internal/cfg/cfg.go:703-709 | on clauses legal in Go the builder's flag is the language's meaning iff a clause that means to fall ends in the bare keyword |
| Limits.ClauseFalls | internal/cfg/cfg.go:689-692 | run from its last non-empty statement on, a clause that means to fall enters the next clause, labels and trailing empty statements or not |
| Limits.ClauseLeaves | internal/cfg/cfg.go:703-717 | in the graph, running off the end of a clause enters the next clause's block if the builder took it to fall through, and leaves the switch otherwise |
| CallSites.CallSitesCorrect | internal/cfg/cfg.go:176-182 | every recorded call site names a block and index holding the instruction its call's statement became, launches are marked asynchronous, and no direct call is missed |
| CallSites.InOrder | internal/cfg/cfg.go:73-91 | a walk at index j of a block has just run everything from any earlier index in order: index order within a block is execution order |
| Termination.VerdictOnExecutions | internal/engine/cfg_verdict.go:86-93 | the built graph has an unresolved loop iff some execution reaches a point from which it can run on without end but never finish |
| TrustedGraph.TrustMerges | internal/cfg/cfg.go:395-417 | for every body with unique labels, deleting the trusted-stop edges and merging each block that follows a trusted call into the block before it, instructions concatenated, turns the graph built with trusted calls into the structural one, edge by edge |
| TrustedGraph.SolePredecessor | internal/cfg/cfg.go:408-414 | the block that follows a trusted call has the block cut there as its only predecessor |
| TrustedGraph.NothingLost | internal/cfg/cfg.go:404-407 | a block is reachable iff the structural block it is part of is: trusting calls makes no code dead and revives none |
| TrustedGraph.RepeatedLabelSplits | internal/cfg/cfg.go:256-269 | a concrete body with two blank labels and a trusted call, for which no merging gives the structural graph |
| TrustedGraph.MergedVerdict | internal/engine/cfg_verdict.go:86-93 | the trusted graph has an unresolved loop iff some reachable cyclic block of the structural graph reaches neither the exit nor a block that was cut |
| TrustedGraph.VerdictUnderTrust | internal/engine/cfg_verdict.go:86-93 | the same on bodies: unresolved under trust iff some reachable cyclic block of the structural graph reaches neither the exit nor a trusted call |
| Trust.LoopVerdict | internal/engine/cfg_verdict.go:86-93 | building the graph and computing the verdict on it answers that question about the structural graph if labels are unique, and, for well-formed bodies, the one whether an execution can get to a point from which it can run on forever but neither end nor come to a trusted call |
| Dataflow.Processed | internal/model/dataflow.go:60-73 | processing a block makes its state grow, keeps it below every solution and settles its equation, disturbing only blocks that are queued |
| Dataflow.Solve | internal/model/dataflow.go:23-76 | on a join-semilattice of finite height with monotone transfer it ends; unreachable blocks stay at bottom, reachable ones satisfy their equations, and the result is below every solution |
| Lattices.EarnedClosed | internal/engine/dataflow_lattices.go:140-165 | crediting each block with what walks to it earn is a solution, so nothing is credited without a walk |
| Lattices.StopCapabilityDataflow | internal/engine/dataflow_lattices.go:140-165 | a reachable block is proven-consumed iff some walk from the entry to it meets a block with a return, panic or trusted-stop edge, otherwise available; unreachable blocks, and bodies without a stop mechanism, have none |
| Obligation.LiveExitReachable | internal/frontend/frontend.go:6493-6528 | known iff there is an origin; if origins are reachable, reachable iff some run meets an origin, enters no anywhere block, and past the origin's index meets no after discharge and takes no skipped edge |
| Obligation.BypassIsOpen | internal/frontend/frontend.go:6493-6528 | every run that bypasses all discharges is found by the block-level search |
| Obligation.OpenIsBypass | internal/frontend/frontend.go:6493-6528 | everything the block-level search finds is such a run |
| Obligation.CalledOnAllPaths | internal/frontend/frontend.go:8469-8509 | for a cancel function, no answer iff nothing can be placed, no if only a callee may call it; otherwise true only if every run that acquires it either takes a skipped edge later, calls it past the acquisition or registers a deferred call, and exactly then if the acquisition is reachable |
| StopOrdering.AvoidingDecides | internal/model/model.go:286-303 | away from the stop's own block, "not reachable avoiding the waits" is exactly "every walk to the stop has waited before" |
| StopOrdering.StopProvenAfterWait | internal/frontend/frontend.go:8416-8426 | proven iff every walk to the stop has executed a wait before it, unless the stop's own block holds a wait and none before the stop |
| StopOrdering.RegisteredBefore | internal/frontend/frontend.go:6942-6947 | holds iff one defer is registered before the other on every path that reaches the other, and at a lower index if they share a block |
| StopOrdering.StopAfterWait | internal/frontend/frontend.go:6839-6896 | the claim is made iff every stop signal is deferred beside a plain wait, or deferred and registered before a deferred wait on every walk to it, or plain with a plain wait before it on every walk to it that no later in-block wait hides |
| StopOrdering.ClaimedBeforeDeferred | internal/frontend/frontend.go:6875-6882 | a deferred stop is claimed if every walk to a deferred wait has registered it before |
| StopOrdering.ClaimedAcross | internal/frontend/frontend.go:6870-6871 | a plain stop is claimed if every walk to it has met a plain wait elsewhere and none stands in its block |
| StopOrdering.NoStopBeforeFirstWait | internal/frontend/frontend.go:6839-6896 | if claimed, then on every run executing a plain wait no stop signal, plain or deferred, executes before the first one |
| StopOrdering.DeferredWaitRunsFirst | internal/frontend/frontend.go:6839-6896 | if claimed with all waits deferred, each stop is deferred and has a wait that executes before it on every run registering that wait, and the stop once |
| StopOrdering.RepeatedRegistration | internal/frontend/frontend.go:6825-6832 | for a deferred stop always preceded by a deferred wait, the wait executes before every registration of the stop on every run iff no way leads from the wait to the stop and from there to the exit |
| StopOrdering.LastRegistration | internal/frontend/frontend.go:6825-6832 | no stop executes before the first wait on any run iff no way leads from the wait to the stop and from there to the exit around the wait |
| StopOrdering.LoopStopsFirst | internal/frontend/frontend.go:6839-6896 | a concrete looping graph on which the claim is made and a run executes the stop before every wait |
| StopOrdering.LaterWaitHidesEarlier | internal/frontend/frontend.go:8416-8426 | a graph on which the stop always follows a wait but the proof gives up |
| GroupBalance.Unmentioned | internal/frontend/frontend.go:5599-5681 | a statement that does not mention the group leaves every count as it is |
| GroupBalance.IndexRefines | internal/frontend/frontend.go:5847-5960 | walking with any skip index that records at least the groups a statement mentions gives the same totals, spawned count and certainty as walking without |
| GroupBalance.WalkSound | internal/frontend/frontend.go:5885-5960 | for every statement, execution and starting count, a walk that stays certain accounts exactly for what the execution does, inside loops and outside |
| GroupBalance.LoopSound | internal/frontend/frontend.go:6048-6082 | a loop that is accounted for leaves the counter where it was, for any number of rounds |
| GroupBalance.BalanceSound | internal/frontend/frontend.go:5885-6123 | if fully known, adds minus dones end at least at the count (plus headers) for any choices and iteration counts and workers calling Done at most once, with equality iff every worker does |
| GroupRuns.Runs | internal/frontend/frontend.go:5885-5960 | every statement without an empty select has an execution, so the statements about all executions are not empty |
| GroupRuns.LoopRuns | internal/frontend/frontend.go:5944-5950 | a loop runs any number of rounds |
| GroupRuns.PassesBy | internal/frontend/frontend.go:5951-5954 | a switch is passed by in some execution iff it has no default |
| GroupBalance.CountIsRight | internal/frontend/frontend.go:5885-6123 | if no initialiser or post statement acts on the group, the count itself is that bound, with equality iff every started worker calls Done |
| GroupBalance.SpawnedRuns | internal/frontend/frontend.go:6032-6039 | every worker counted as spawned is started in every execution |
| GroupBalance.HeaderAddMissed | internal/frontend/frontend.go:5917-5936 | an Add in an if initialiser is counted as nothing though every execution performs it |
| GroupWalker.WalkGroupBalanceStmt | internal/frontend/frontend.go:5885-5960 | the imperative walk fills ledger and loop scope as the specified walk does |
| GroupWalker.WalkGroupBalanceStmts | internal/frontend/frontend.go:5847-5856 | a fresh balance for a list, skipping by the index |
| GroupCounts.WalkFinds | internal/frontend/frontend.go:5885-5960 | walking a statement, in a loop or not, adds exactly the constant Adds, Dones and started workers of its simple statements outside loops and open conditionals, and stays certain iff amounts are constant, loops match and arms come out even |
| GroupCounts.WalkCounts | internal/frontend/frontend.go:5847-5960 | the same for a whole list and any skip index: all four fields of the balance, exactly |
| GroupCounts.SpawnedExactly | internal/frontend/frontend.go:6032-6039 | on a list of simple statements, blocks and labels the spawned count is the number of workers every execution starts |
| GroupWalker.FoldConditionalArms | internal/frontend/frontend.go:6107-6123 | nothing changes if every arm comes out even for certain, otherwise certainty is given up where the conditional stands |
| GroupWalker.CloseLoopScopeInto | internal/frontend/frontend.go:6061-6082 | certainty is kept iff the loop did nothing else and its Add(1)s match its started workers |
| GroupRounds.FlattenWalks | internal/frontend/frontend.go:5816-5829 | flattening bare blocks and labels does not change the count |
| GroupRounds.FlattenFlat | internal/frontend/frontend.go:5816-5829 | no block and no label is left, and the simple statements are the same in the same order |
| GroupRounds.FlatSum | internal/frontend/frontend.go:5816-5829 | nor what any execution does |
| GroupRounds.RoundBalances | internal/frontend/frontend.go:5763-5805 | a mismatch is reported iff at some top-level Wait the count is certain and constant Adds before it outnumber Dones and started workers; a further round iff, outside loops and open conditionals, a worker is started after the last Wait |
| GroupRounds.RoundsSumToBody | internal/frontend/frontend.go:5763-5829 | the balances of all segments between the Waits and of the trailing one add up to the unflattened body's |
| GroupRounds.CounterAtWait | internal/frontend/frontend.go:5763-5805 | once all earlier workers have finished, the counter at a Wait equals the count plus headers, minus deferred Adds, plus deferred Dones, and is no lower before |
| GroupRounds.MismatchBlocks | internal/frontend/frontend.go:5763-5805 | a reported Wait blocks an execution, whatever its workers have done, iff count, headers and deferred Dones outweigh deferred Adds |
| GroupRounds.ReportedWaitBlocks | internal/frontend/frontend.go:5763-5805 | on a body in which no header acts on the group and no Add is deferred before the Wait, a reported Wait blocks in every execution |
| GroupRounds.DeferredAddMisreported | internal/frontend/frontend.go:6131-6147 | a concrete body whose Wait is reported with nothing added |
| GroupRounds.UnjoinedStarts | internal/frontend/frontend.go:5796-5804 | a reported further round starts a worker in every execution of the trailing segment |
| Effects.Table.RecordParamEffects | internal/frontend/frontend.go:2324-2329 | merges by union; changed iff the recorded state did, first recording of an empty set included |
| Effects.GrownStable | internal/frontend/frontend.go:1965-1977 | when a summary grows, only its listed callers can be unsettled |
| Effects.FixedPoint | internal/frontend/frontend.go:1896-1980 | ends for any evaluation; no function's evaluation can grow the result, which is what evaluating in the order taken yields; least such state if evaluations are monotone; in that order each function occurs at most one time more than its callees' summaries grew |
| Effects.OrderDoesNotShow | internal/frontend/frontend.go:1896-1980 | if the same functions are declared in another order, monotone evaluations end in the same summaries |
| Effects.RenumberedStable | internal/frontend/frontend.go:1896-1980 | a state is stable for one order of declaration iff it is for another |
| EffectOrder.HandOffNotMonotone | internal/frontend/frontend.go:2931-2953 | a callee that turns from consuming to handing on takes its caller's credit back |
| EffectOrder.DeclarationOrderShows | internal/frontend/frontend.go:1896-1980 | three helpers declared in two orders, one a renumbering of the other, end with different recorded effects, however the worklist continues |
| EffectOrder.NotMonotone | internal/frontend/frontend.go:2320-2323 | the evaluations of these helpers are not monotone |
| Receiver.LeaveForGood | internal/frontend/frontend.go:4323-4353 | a call path through a variable can be taken not to come back to it, which is why a frame loses nothing by being cut out of its own callees |
| Receiver.Summaries.HandleSummaryOf | internal/frontend/frontend.go:4323-4353 | a result with marker m covers everything reached without passing the stack from m on; without a marker it is exact; whatever is stored is exact; asked for with an empty stack, it misses no escape; past the depth bound nothing is stored and the handle counts as escaping, which happens only if a call path through 17 different variables, those on the stack included, leads on |
| Receiver.FieldsExactly | internal/frontend/frontend.go:4062-4075 | unless a call cycle has an asynchronous call on it, the fields that escape are those that do so somewhere and those called by what an asynchronous call starts |
| Receiver.StartedCall | internal/frontend/frontend.go:4062-4075 | a concrete handle passed to one asynchronous call: the field called there escapes, and nothing else is recorded |
| Receiver.CallWalks | internal/frontend/frontend.go:4062-4089 | merging a callee's summary, synchronous or not, keeps what has been covered and invents nothing |
| Receiver.CoversIsExact | internal/frontend/frontend.go:4342-4352 | a summary that covers everything and invents nothing has called and waited equal to the union over synchronous paths, escapes equal to the disjunction over all paths, and the fields that escape between those told of by paths without and with repetitions |
| Alias.Sweep | internal/frontend/frontend.go:3323-3349 | one pass marks exactly what follows binding by binding; one that changes nothing has settled every binding, one that changes something leaves fewer unset |
| Alias.ResolveAliasEscapes | internal/frontend/frontend.go:3323-3356 | ends with the first pass that changes nothing; a cancel escapes iff it did at first or an alias chain leads from it to an active or initially escaping one, a group also if assigned into another; independent of list order |
| Alias.AsManyPasses | internal/frontend/frontend.go:3257-3259 | the passes are at most as many as the bindings unless one kind has none and the other is a staircase, possibly empty: each binding assigned into the next, only the last with an active alias, none escaping at first; then they are more |
| Alias.ThreePasses | internal/frontend/frontend.go:3257-3259 | two cancels that alias each other take exactly three passes |
| Levels.CountEdges | internal/standalone/loader.go:455-477 | indegrees count selected dependencies once each, self-imports ignored, and dependents list them in reverse |
| Levels.PeelLevel | internal/standalone/loader.go:490-502 | after a level is done, indegrees count what is left and next holds exactly the units that have just become free |
| Levels.StuckIsCyclic | internal/standalone/loader.go:503-505 | units that all wait for one another contain an import cycle |
| Levels.LevelIsLongest | internal/standalone/loader.go:454-507 | a unit's level is the length of its longest dependency chain |
| Levels.AnalysisLevels | internal/standalone/loader.go:454-507 | for distinct import paths, an error iff the import graph has a cycle; otherwise every unit is in exactly one level, dependencies strictly earlier, paths rising along each level |
| Waves.StepKeeps | internal/standalone/loader.go:650-746 | every step of every worker keeps the invariant on jobs, workers, store and results |
| Waves.FactsCommittedFirst | internal/standalone/loader.go:646-650 | in every reachable state, what a unit at work imports is finished and its facts are in the store |
| Waves.LookUpsSeeStore | internal/standalone/loader.go:181-190 | in every state of every run, each answer an analysis has been given is what the store holds under the key asked for, or none if it holds nothing |
| Waves.LookUpsSeeFacts | internal/standalone/loader.go:646-650 | asking about an imported unit, it is told exactly what that unit finished with at the step that recorded it |
| Waves.SequentialAnswers | internal/standalone/loader.go:650-746 | each unit of the sequential run is told what the store of the units before it holds |
| Waves.AnalysedOnce | internal/standalone/loader.go:650-746 | in a run that completes every unit is taken exactly once |
| Waves.NeverStuck | internal/standalone/loader.go:650-746 | a run that is not complete can go on |
| Waves.ConcurrentIsSequential | internal/standalone/loader.go:650-746 | whatever the interleaving and number of workers, final facts and results are those of analysing the units one by one in level order |
| Waves.RunsAgree | internal/standalone/loader.go:650-746 | any two complete runs end with the same facts and results |
| Waves.TwoCompletes | internal/standalone/loader.go:650-746 | a concrete project of two packages has a complete run, in which the importing one is given the fact of the other |

## Left out

- Parsing, type checking, package listing, export data, file filtering and the vet adapter: I/O and foreign libraries.
- Reports, diagnostics, spans, evidence strings, edge labels and suggested fixes: text.
- Configuration, flags, exit codes, coverage and status merging: sums field by field.
- The syntactic recognisers of the frontend: their findings are inputs.
- Cancellation and deadline polling in every loop: the model describes failure-free processing, and the waves failure-free runs.
- Expressions inside a statement: a statement is one instruction that lists its direct calls and says whether it panics; a call's own effects are not modelled. The communication statement of a select clause emits no instruction in the code, so it has none here.
- Type switches: compiled exactly like switches, by a copy of the same code.
- The skip index as a map keyed by statements, and how it is filled: it is any function from statements to groups that records at least what a statement mentions.
- The JoinObligation and Ownership lattices: the same shape as the stop capability, used by no production code.
- Correlation labels of a stop-ordering claim: they pick the wording of the report.
- The reassignment and loop heuristics behind the skipped edges of an error branch: any predicate is allowed.
- Receiver.CoversIsExact: escaping fields are bounded from both sides on call cycles with an asynchronous call, where the code settles for partial answers; Receiver.FieldsExactly has the equality on all other programs.
- TrustedGraph.TrustMerges: one direction in its condition; a body that repeats a blank label without entering it again after a trusted call merges all the same.
- TrustedGraph.VerdictUnderTrust: asks in addition that a trusted instruction ends in a trusted call, and so is not a panic, a return or a statement that is no call; TrustedGraph.MergedVerdict does without that.
- Correctness.CompilerCorrect: one direction in its condition; bodies outside it can still be translated faithfully when the defect is in dead code, so no syntactic condition is exact.
- Waves.ConcurrentIsSequential: assumes that facts carry their package's own keys and that an analysis looks up only packages it imports, as the type checker guarantees.
- Go's integer width in totals, indegrees and block numbers: counts stay far below it.
