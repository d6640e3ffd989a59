# Verified model of the XSS scanner's core

A Dafny model of the parts of the scanner whose correctness is hardest to see, with proofs of what
they promise. The proofs are checked with Dafny 4.11: `dafny verify dfyconfig.toml`.

## What is modelled

**Path-scoped scheduling.** `PathScheduler.dfy` holds the scheduler as a value and as the object that
is updated in place; the object's methods are proved to take exactly the decisions described on
values. `Dispatcher.dfy` is a labelled transition system of producer, dispatcher, workers, relays and
cancellation over the same decisions: safety over whole runs, no deadlock, a falling measure with an
explicit bound, what has been delivered in the end, and fairness.

**JavaScript data flow.** `FlowSyntax.dfy` and `FlowHeap.dfy` hold the syntax tree and the cyclic graph
of scopes and function values, `FlowValues.dfy` says how values and variable tables of two branches are
joined; `FlowAnalyzer.dfy` is the analyzer object on that graph: branch copies, merges, sinks, calls,
statements, and the work budget that makes it end. `FlowSpec.dfy` says on values what it computes for
programs whose functions are declared outermost and called by their names, loops and query parameters
included, and the object is proved to compute just that; `FlowCalls.dfy` says what this means for the
arguments of a call, for what a function returns and for query parameters. `FlowRuns.dfy` is a semantics of
the programs without functions and loops in which values carry the inputs they were computed from. What outside
functions, properties and global names deliver and what operators compute is arbitrary and may change from
one moment of the run to the next; and what the program put into a property, handed to a function that
keeps it, or sent to a sink may come back wherever it meets a value again. `FlowSoundness.dfy` describes
the programs for which the specified flows are proved to cover every run in every such world.
`FlowReport.dfy` puts this together at the entry point. `FlowLimits.dfy` and `FlowEscapes.dfy` hold programs
at the edge of the claim: where the analysis loses an input, it is proved exactly when it does.

**Analysis cache.** `CacheStore.dfy` describes the contents and the eviction, `ParseCache.dfy` is the
object with its table, recency list, byte count and flights, and `SingleFlight.dfy` interleaves any
number of callers.

**Spans.** `GapScan.dfy` recovers comments and module strings between parser literals and answers the
queries on the result (`Analyses.dfy` has the record).

**Supporting algorithms.** `AttributeQuotes.dfy` compares the attribute scanner with the states of the
HTML standard; `Crawler.dfy` is the breadth-first crawl; `Grouping.dfy` is grouping by key, used by
`Verification.dfy` (candidate groups and their verification), `VerificationRun.dfy` (the run over all
groups), `Dedup.dfy` and `Aggregation.dfy` (both on `Findings.dfy`) and `PayloadBudget.dfy`;
`RequestBudget.dfy` is the compare-and-swap counter and `Observation.dfy` the bounded log.

## Assumptions

Parsers, the HTML library, regular expressions, URL normalization, context and payload classification,
same-origin and scope checks, what pages link to, and which paths may converge (`buildScheduledTasks`) are
parameters. SHA-256 is assumed not to map two sources to one digest. `strings.ToLower` is assumed to be
ASCII lowering on ASCII text. Confidences are real numbers. Strings are sequences of bytes or ASCII
characters, as the source uses them. Counters are unbounded. Channels are modelled with their capacities; a
goroutine between two synchronisations is one step. Map iteration order is left open everywhere: the proofs
cover every order. Verification and payload attempts are assumed to come to an end.

Soundness of the data flow is about the inputs and sinks the analyzer names: reads of the listed paths and
of storage entries under literal keys, calls of the listed paths and methods, and assignments to the listed
properties. The same data or the same function under another name (a bare `name`, `location.href`,
`window.document.write`, an attribute name that is no literal) is neither input nor sink. Which outside
functions may keep what they are given, or look at global variables, is a parameter; the others are assumed
not to. Text that a sink runs as code (`eval`, `Function`, timers, markup) is assumed not to change the
program's variables and not to read inputs, and outside code's own reads of inputs are not followed.

## Model

| member | source | states |
|---|---|---|
| `PathScheduler.InitialHoldsEveryTask` | pkg/scanner/adaptive.go:120-138 | A new scheduler holds every candidate exactly once, in the queue of its own path and in list order, and the rotation holds exactly the paths of the tasks, none twice. |
| `PathScheduler.AddTask` | pkg/scanner/adaptive.go:128-136 | Adding tasks one at a time gives the same state as building the scheduler over the whole list, whatever the list. |
| `PathScheduler.PickOrIdle` | pkg/scanner/adaptive.go:173-205 | A decision either finds exactly one place in the rotation or there is no eligible path; never both, never neither. |
| `PathScheduler.PickIsUnique` | pkg/scanner/adaptive.go:173-205 | A state, a set of proven paths and an index bound determine which place is picked. |
| `PathScheduler.IdleMeansNothingEligible` | pkg/scanner/adaptive.go:173-205 | `nextBounded` fails if and only if no path at all is eligible: the wrap-around misses none. |
| `PathScheduler.ScanAgainstGrowingProofs` | pkg/scanner/adaptive.go:86-94 | Reading the shared set of proven paths one path at a time, while workers add to it, picks the place that reading it once at the last examination would have picked. |
| `PathScheduler.IdleScanAgainstGrowingProofs` | pkg/scanner/adaptive.go:173-205 | A scan that finds no place eligible as it reads is right to give up: at the last set read nothing is eligible. |
| `PathScheduler.ExhaustedAgainstGrowingProofs` | pkg/scanner/adaptive.go:234-241 | Reading proofs path by path, the answer yes and the answer no are both right for the set read last. |
| `PathScheduler.ServingBringsOthersCloser` | pkg/scanner/adaptive.go:195-202 | An eligible path that is passed over is strictly closer to the cursor afterwards. |
| `PathScheduler.PathSet.Add` | pkg/scanner/adaptive.go:77-84 | Proofs are only ever added; the empty path is ignored. |
| `PathScheduler.Scheduler.Create` | pkg/scanner/adaptive.go:120-138 | The constructor succeeds if and only if every task carries a path, and otherwise names the first that does not; on success its state is that of the whole list. |
| `PathScheduler.Scheduler.NextBounded` | pkg/scanner/adaptive.go:173-205 | The object hands out the first candidate of the first eligible path from the cursor, moves exactly that path and the cursor, and changes nothing when no path is eligible. |
| `PathScheduler.Scheduler.Done` | pkg/scanner/adaptive.go:219-226 | Releases one slot of a known path that has one; an unknown path or an empty counter is left alone. |
| `PathScheduler.Scheduler.IsExhausted` | pkg/scanner/adaptive.go:234-241 | True exactly when every candidate left belongs to a proven path, in whatever order the map is visited. |
| `PathScheduler.Scheduler.InFlightTotal` | pkg/scanner/adaptive.go:208-214 | The total over all paths, independent of the order of visiting. |
| `PathScheduler.Scheduler.SkippedByProof` | pkg/scanner/adaptive.go:244-252 | The number of candidates left on proven paths, independent of the order of visiting. |
| `Dispatcher.InvStep` | pkg/scanner/adaptive.go:410-503 | Every step of producer, dispatcher, workers, relays and cancellation keeps the joint invariant of queues, channels, slots, stages and proofs; the proven paths stay among those that may converge. |
| `Dispatcher.ProofsAreEarned` | pkg/scanner/engine.go:401-421 | In every run: a path that counts as proven may converge, and a worker that was running one of its candidates published the proof. |
| `Dispatcher.CapacitiesHold` | pkg/scanner/adaptive.go:410-503 | In every run no channel holds more than its capacity, and no more candidates are worked on than there are workers. |
| `Dispatcher.PickedItem` | pkg/scanner/adaptive.go:451-457 | A scheduler index always selects the item that arrived at that position, and that item was never handed out before. |
| `Dispatcher.SlotsPerPath` | pkg/scanner/adaptive.go:398-405 | In every run a path never has more candidates between hand-out and release than its bound. |
| `Dispatcher.ProofStopsThePath` | pkg/scanner/engine.go:393-427 | With bound 1: once a worker has published a proof, no candidate of that path is chosen, sent or started in the rest of the run. |
| `Dispatcher.NoDeadlock` | pkg/scanner/adaptive.go:410-503 | Until the dispatcher has exited some goroutine can move, in every reachable state. |
| `Dispatcher.MeasureFalls` | pkg/scanner/adaptive.go:410-503 | Every step of every goroutine lowers one natural number, cancellations included. |
| `Dispatcher.RunsAreBounded` | pkg/scanner/adaptive.go:410-503 | Every run has at most 66 steps per candidate and 22 more, and a run that cannot be continued has let the dispatcher exit. |
| `Dispatcher.EverythingEnds` | pkg/scanner/adaptive.go:410-503 | A run that cannot be continued is over for everyone: the dispatcher has exited, the producer has closed its channel, no relay is left, no worker is busy, and nothing waits for a worker that is left. |
| `Dispatcher.CancelStopsWork` | pkg/scanner/engine.go:398-410 | After a cancellation no further attempt begins, and every worker takes at most one more candidate and returns. |
| `Dispatcher.PathOrderIsKept` | pkg/scanner/adaptive.go:166-172 | At every moment of every run: what was sent of a path, then the item being offered or given up, if there is one, then what the scheduler keeps, is the list of its candidates in order. |
| `Dispatcher.Delivered` | pkg/scanner/adaptive.go:231-252 | When the dispatcher is gone without cancellation every candidate was sent exactly once, in path order, except leftovers of proven paths, whose number is exactly `skippedByProof`; of a path that may not converge every candidate was sent and released. |
| `Dispatcher.FairService` | pkg/scanner/adaptive.go:160-163 | A path that stays eligible is served within as many hand-outs as there are paths. |
| `FlowSpec.UpdateAt` | pkg/jsanalysis/flow.go:68-76 | Assigning changes exactly the innermost scope that binds the name and nothing else. |
| `FlowHeap.CopyIsIsomorphic` | pkg/jsanalysis/flow.go:446-479 | A finished copy is isomorphic to a graph closed under parents, variables and closed-over scopes: same scope kinds, names, sources, function texts and origins, corresponding parents and closures, injective tables. |
| `FlowAnalysis.FlowAnalyzer.CloneScope` | pkg/jsanalysis/flow.go:446-479 | The copy consists of new objects only, is closed, changes nothing old, and unless a work limit is hit is isomorphic to everything reachable, round all cycles. |
| `FlowAnalysis.CloneTracks` | pkg/jsanalysis/flow.go:446-479 | A copied scope chain holds exactly the variables of the original and copies of the same functions, closing over the copy of the same scope. |
| `FlowAnalysis.FlowAnalyzer.Tick` | pkg/jsanalysis/flow.go:77-84 | A tick succeeds exactly while no problem was found, at most 10000 steps were taken, the depth is at most 128 and the calls are at most 8, and then the remaining fuel has fallen. |
| `FlowAnalysis.FlowAnalyzer.Find` | pkg/jsanalysis/flow.go:60-67 | In every chain, functions or not: delivers what the innermost scope that binds the name holds, and nothing exactly if none does. |
| `FlowAnalysis.FlowAnalyzer.Assign` | pkg/jsanalysis/flow.go:68-76 | In every chain: sets the name in the innermost scope that binds it, or else in the scope itself, and changes no other variable of any scope; the graph stays closed. |
| `FlowAnalysis.FlowAnalyzer.JoinValues` | pkg/jsanalysis/flow.go:85-112 | Without a problem the sources are those of the left value followed by the new ones of the right; a new problem is reported exactly when two functions meet or more than 8 sources would be needed. |
| `FlowAnalysis.FlowAnalyzer.Sink` | pkg/jsanalysis/flow.go:120-138 | Without a problem the flows grow by exactly the missing pairs of the value's sources with the sink; the list is never shortened, and a problem is reported exactly when more than 64 pairs would be needed. |
| `FlowAnalysis.FlowAnalyzer.PathOf` | pkg/jsanalysis/flow.go:150-172 | In every chain: the dotted path of an access chain, empty exactly if its root is bound in the chain, is no name, or the access is too deep. |
| `FlowAnalysis.FlowAnalyzer.MergeScopes` | pkg/jsanalysis/flow.go:480-517 | In every chain, without a problem: each scope ends up with what its two branches make of it, name by name; a function both branches kept stays the original one, not a copy; no scope outside the chain changes, even when the left branch is the original itself. |
| `FlowValues.HoldingMergedAlong` | pkg/jsanalysis/flow.go:480-517 | On chains whose outermost scope holds functions, in branch copies or not, this merge is the one of the specification, and every function stays the original one. |
| `FlowAnalysis.FlowAnalyzer.Expression` | pkg/jsanalysis/flow.go:182-281 | Ends within the remaining ticks on every expression, however functions call each other; changes only variables of the scopes it can reach, adds only new objects, restores `depth` and `calls`, never forgets a flow or a problem; on the specified fragment delivers exactly the specified value, variables and flows. |
| `FlowAnalysis.FlowAnalyzer.AssignExpr` | pkg/jsanalysis/flow.go:203-217 | On the specified fragment an assignment, compound or not, delivers and stores exactly what is specified: a compound one joins the old value in front of the new one. |
| `FlowAnalysis.FlowAnalyzer.NewExpr` | pkg/jsanalysis/flow.go:260-268 | Object creation delivers query parameters exactly for `URLSearchParams` of an argument with a single source, and nothing otherwise; nothing but that argument is evaluated. |
| `FlowAnalysis.FlowAnalyzer.Branches` | pkg/jsanalysis/flow.go:256-257 | The two alternatives get two copies that share no object with each other or with anything old, each isomorphic to the original graph unless a limit is hit. |
| `FlowAnalysis.FlowAnalyzer.AlternativeExprs` | pkg/jsanalysis/flow.go:256-259 | Analysing both alternatives changes no scope of the program they started from, and on the specified fragment both start from the same variables. |
| `FlowAnalysis.FlowAnalyzer.RejoinTwo` | pkg/jsanalysis/flow.go:258-259 | In every chain, without a problem: the original scopes end up with the merge of what they held and what the two copies hold. |
| `FlowAnalysis.FlowAnalyzer.MaybeExpr` | pkg/jsanalysis/flow.go:230-233 | In every chain, without a problem: the right operand of a logical operator works on a copy of its own, and the scopes end up with the merge of what they held before, unchanged, and what the copy holds. |
| `FlowAnalysis.FlowAnalyzer.Invoke` | pkg/jsanalysis/flow.go:336-362 | For every function of the fragment whose closed-over chain is tracked, and plain arguments: without a problem the value, the flows and the variables of that chain are those of the body in a new scope that binds the parameters to the arguments, and at most 8 calls are nested. For every function at all: it ends within the remaining ticks, keeps the graph closed and restores the call counter on every way out. |
| `FlowAnalysis.FlowAnalyzer.CallFunction` | pkg/jsanalysis/flow.go:291-293 | A call of a function declared outermost, from wherever it is made: the body works on the outermost scope, and of the caller's scopes no other one changes. |
| `FlowAnalysis.FlowAnalyzer.Callbacks` | pkg/jsanalysis/flow.go:328-332 | Without functions among the arguments nothing happens; a single one in the fragment is invoked without arguments, with the specified flows and variables. |
| `FlowAnalysis.FlowAnalyzer.BindParameters` | pkg/jsanalysis/flow.go:343-353 | The scope of a call holds what `WithParameters` says. |
| `FlowValues.ParameterIsBound` | pkg/jsanalysis/flow.go:343-353 | A parameter name is bound to the argument in its place, the last place counting, and to an unknown value if there is no such argument. |
| `FlowAnalysis.FlowAnalyzer.ReadInput` | pkg/jsanalysis/flow.go:292-303 | Which calls read an input and what they deliver, in every chain; nothing is changed and no problem is reported, so a key over 128 bytes is dropped silently. |
| `FlowAnalysis.FlowAnalyzer.List` | pkg/jsanalysis/flow.go:373-394 | A statement list does and returns what the specification says statement by statement, or stops with a problem; at the outset of a program of the fragment it computes what is specified for the whole program. |
| `FlowAnalysis.FlowAnalyzer.Hoist` | pkg/jsanalysis/flow.go:373-385 | In every chain, without a problem: exactly the functions the list declares, exported or not, are bound in the scope before its first statement, the last declaration of a name counting, each with its own text and closing over the scope; every other name keeps its value. |
| `FlowAnalysis.FlowAnalyzer.Statement` | pkg/jsanalysis/flow.go:395-445 | Every statement form ends, keeps the graph closed, and on the specified fragment computes exactly the specified state and returned value. |
| `FlowAnalysis.FlowAnalyzer.WhileStmt` | pkg/jsanalysis/flow.go:434-443 | A loop in the fragment: its test is analysed, then its body once on a copy that is merged into the scopes as they were, unless the test is the literal `false`. |
| `FlowAnalysis.FlowAnalyzer.Bindings` | pkg/jsanalysis/flow.go:363-372 | Names are bound in the declaring scope to the values of their initializers; patterns bind nothing. |
| `FlowSoundness.SoundExpr` | pkg/jsanalysis/flow.go:182-281 | On the supported fragment: if the tables cover a concrete state, evaluating an expression keeps them covering it and its value, except for reported inputs that come back from outside; in every world, however its answers change during the run. |
| `FlowSoundness.StoreCovers` | pkg/jsanalysis/flow.go:206-217 | The same for assignments: to variables, to sink properties, and to other properties of values whose inputs are reported. |
| `FlowSoundness.SoundCall` | pkg/jsanalysis/flow.go:283-334 | The same for calls of functions named by a global path and of methods of variables: inputs read, sinks reached, receiver and arguments, and what the function keeps. |
| `FlowSoundness.SoundStmts` | pkg/jsanalysis/flow.go:373-394 | The same for statement lists, including code that a return makes unreachable. |
| `FlowSoundness.FlowsCoverEveryRun` | pkg/jsanalysis/flow.go:47-58 | In every world, and with answers that change from moment to moment, every input that reaches a sink when a supported program runs is reported at some sink, and at this very sink unless inputs put outside come back. |
| `FlowLimits.AnswersMayChange` | pkg/jsanalysis/flow.go:422-433 | A program that asks one outside function twice: where it answers yes and then no, an input reaches a sink across both branch merges, and the flow is reported. |
| `FlowLimits.StorageIsSeenExactlyWhen` | pkg/jsanalysis/flow.go:113-119 | The input that a storage read delivers in every run is among its specified sources if and only if the node lies in the script and the key has at most 128 bytes. |
| `FlowLimits.StorageFlowIsReportedExactlyWhen` | pkg/jsanalysis/flow.go:113-119 | Writing a storage entry into the page reaches the sink in every run; that flow is among the specified ones if and only if the key has at most 128 bytes, and for a longer key no flow is. |
| `FlowEscapes.PropertyStoreIsFollowedExactlyWhen` | pkg/jsanalysis/flow.go:206-217 | A program that stores an input in a property and then writes some value into the page: however things come back, no input reaches a sink unreported, if and only if the property is a sink itself. |
| `FlowEscapes.HandingOverIsFollowedExactlyWhen` | pkg/jsanalysis/flow.go:318-334 | The same for an input handed to a function that is no sink: if and only if the function keeps nothing. |
| `FlowReport.SupportedStmtsAreDirect` | pkg/jsanalysis/flow.go:373-445 | Every program soundness is claimed for lies in the fragment on which the analyzer object computes the specification. |
| `FlowCalls.ArgumentReachesTheBody` | pkg/jsanalysis/flow.go:336-362 | A function whose body writes a parameter into the page, called with inputs: exactly the argument in the place of the last parameter of that name is specified to reach the page, and nothing if it is missing. |
| `FlowCalls.ReturnedArgumentIsDelivered` | pkg/jsanalysis/flow.go:354-362 | A function that returns a parameter: exactly the argument in its place is what the call delivers. |
| `FlowCalls.ParameterReachesThePage` | pkg/jsanalysis/flow.go:292-296 | A parameter of `URLSearchParams` made from an input, written into the page: a flow is specified exactly for the query and the fragment under keys of at most 128 bytes. |
| `FlowCalls.HashIsShown` | pkg/jsanalysis/flow.go:336-362 | On `function show(x) { document.write(x) } show(location.hash)` exactly the flow from the fragment to `document.write` is specified. |
| `FlowReport.AnalyzeFlows` | pkg/jsanalysis/flow.go:47-58 | The entry point ends on every program; if it reports no problem, then on every program whose functions are declared outermost it reports exactly the specified flows, at most 64, and on supported programs every input that reaches a sink in any world is reported at some sink, and at this very sink unless inputs put outside come back. |
| `FlowReport.AnalyzeStorageWrite` | pkg/jsanalysis/flow.go:47-58 | The entry point on that program, a flow in every world: without a problem it reports exactly this flow if the key has at most 128 bytes, and nothing at all otherwise. |
| `FlowReport.AnalyzeCall` | pkg/jsanalysis/flow.go:47-58 | The entry point on a program that calls its own function with inputs: without a problem it reports exactly the flow of the argument in the parameter's place. |
| `FlowReport.AnalyzeReturn` | pkg/jsanalysis/flow.go:47-58 | The entry point on a program that writes what its own function returns: without a problem it reports exactly the flow of the argument in the returned parameter's place. |
| `FlowReport.AnalyzeParameter` | pkg/jsanalysis/flow.go:47-58 | The entry point on a program that writes a query parameter into the page: without a problem it reports exactly the flow of that parameter, under the same condition. |
| `FlowReport.AnalyzePropertyStore` | pkg/jsanalysis/flow.go:47-58 | The entry point on a program that stores an input in a property that is no sink and writes some value into the page: without a problem it reports nothing, although the input reaches the page wherever it comes back. |
| `CacheStore.TouchKeeps` | pkg/jsanalysis/cache.go:47-52 | A hit only reorders: same entries, same total, bounds and accounting kept. |
| `CacheStore.InsertKeeps` | pkg/jsanalysis/cache.go:74-99 | Publishing keeps at most 256 entries and the byte budget, enters nothing but the result published, and enters it whenever it fits the cache. |
| `CacheStore.HeldWhenItFits` | pkg/jsanalysis/cache.go:74-99 | A published analysis is held, in front, if and only if it costs no more than the budget. |
| `CacheStore.CutExists` | pkg/jsanalysis/cache.go:87-96 | A result that fits the whole cache always finds room: some number of entries may stay. |
| `CacheStore.CutIsSharp` | pkg/jsanalysis/cache.go:87-96 | What stays is exactly what fits: the entries removed are the shortest least recently used suffix. |
| `SingleFlight.InvStep` | pkg/jsanalysis/cache.go:44-100 | Every critical section of every caller keeps: cache, pending table, flights and callers agree. |
| `SingleFlight.AgreesWithParser` | pkg/jsanalysis/cache.go:44-100 | Under every interleaving each call returns what parsing its own source without a cache gives. |
| `SingleFlight.OneParsePerKey` | pkg/jsanalysis/cache.go:53-64 | No two callers are parsing the same source in the same mode. |
| `SingleFlight.WaitersHaveALeader` | pkg/jsanalysis/cache.go:53-57 | A caller waits only for a flight that is over or whose leader is parsing; leaders never wait. |
| `SingleFlight.NeverAlreadyPresent` | pkg/jsanalysis/cache.go:84-86 | At publication the key is never in the cache already. |
| `SingleFlight.CacheStaysBounded` | pkg/jsanalysis/cache.go:74-99 | In every reachable state no key occurs twice, there are at most 256 entries, and the spans, calls and flows held cost at most the budget at 64, 64 and 128 bytes each with their texts. |
| `SingleFlight.NoDeadlock` | pkg/jsanalysis/cache.go:53-57 | As long as a call has not returned some caller can move. |
| `SingleFlight.EveryCallReturns` | pkg/jsanalysis/cache.go:44-100 | At most three steps per caller are taken, and a run that cannot be continued has answered every call. |
| `ParseCache.Evidence.Clone` | pkg/jsanalysis/cache.go:37-42 | A copy has the same contents and shares no list with the original. |
| `ParseCache.Evidence.Charge` | pkg/jsanalysis/cache.go:74-77 | The byte charge of an analysis, computed over its flows. |
| `ParseCache.ParseCache.LookUp` | pkg/jsanalysis/cache.go:46-63 | The first critical section: a hit moves the entry to the front and returns a copy whose lists the cache does not hold, a pending parse is joined, otherwise a new flight is led; table, list and byte count stay consistent. |
| `ParseCache.ParseCache.Publish` | pkg/jsanalysis/cache.go:65-99 | The second critical section: the flight is closed with a private copy, is no longer pending, and the contents become exactly those after insertion and eviction; the cache holds no list but its old ones and those of the copy, so none of the caller's. |
| `ParseCache.HitAndOverwrite` | pkg/jsanalysis/cache.go:12-13 | A caller with a hit may overwrite all its evidence: the cache stays valid and the next caller still gets what was cached. |
| `ParseCache.PublishAndOverwrite` | pkg/jsanalysis/cache.go:37-42 | The caller that parsed may overwrite its evidence after publishing: the cache and every waiter keep what was published. |
| `ParseCache.Flight.Await` | pkg/jsanalysis/cache.go:53-57 | A waiter gets a private copy of what was published. |
| `ParseCache.ParseCache.MakeRoom` | pkg/jsanalysis/cache.go:87-96 | The eviction loop removes exactly the least recently used entries that must go and never finds the list empty. |
| `GapScan.ScanStaysInGaps` | pkg/jsanalysis/analyzer.go:254-313 | Recovered spans are nonempty, in bounds, ordered, disjoint, and start outside every literal. |
| `GapScan.ScanFillsGaps` | pkg/jsanalysis/analyzer.go:254-313 | Nothing is missed: outside all literals and recovered spans neither `//` nor `/*` starts, outside modules no `<!--` and no `-->` at the start of a line, in modules no quote. |
| `GapScan.ScanIsGenuine` | pkg/jsanalysis/analyzer.go:254-313 | Everything recovered is what stands in the text: a line comment from an opening admissible in its mode to the end of the line, a block comment to the first `*/` after its opening, a module string to the first quote of its kind that no backslash protects; an error means that such a comment or string never ends. |
| `GapScan.DisjointExactlyWhen` | pkg/jsanalysis/analyzer.go:254-313 | Literals and recovered spans are disjoint if and only if no literal starts inside a recovered span. |
| `GapScan.MergedIsOrderedExactlyWhen` | pkg/jsanalysis/analyzer.go:254-315 | For nonempty literals that do not overlap: all spans, sorted by start, stand one after the other if and only if no literal starts inside a recovered span. |
| `GapScan.MergedLookup` | pkg/jsanalysis/analyzer.go:254-377 | Then every position is classified by the one literal or recovered span that contains it, and as code if there is none. |
| `GapScan.Recover` | pkg/jsanalysis/analyzer.go:254-313 | The loop with its running literal index, for literals sorted by start: it ends and recovers exactly the spans of the gap scan, or its error, with all of the above. |
| `GapScan.At` | pkg/jsanalysis/analyzer.go:368-377 | For spans sorted by start, disjoint or not: binary search returns what the span that starts last at or before the offset says; a failed parse stays unknown. |
| `GapScan.LookupFindsTheContainingSpan` | pkg/jsanalysis/analyzer.go:368-377 | With disjoint spans that is the span which contains the offset, wherever it stands. |
| `GapScan.InnerSpanHidesTheRest` | pkg/jsanalysis/analyzer.go:368-377 | Why disjointness is needed: behind a span that lies inside another one, the rest of the outer span is classified as code. |
| `GapScan.ContainingSpanIsUnique` | pkg/jsanalysis/analyzer.go:368-377 | With disjoint spans the containing span is unique, so binary search and linear lookup agree. |
| `GapScan.HasCallStartingIn` | pkg/jsanalysis/analyzer.go:382-388 | True exactly when some call starts in the range and the parse succeeded. |
| `AttributeQuotes.AttributeDelimiters` | pkg/context/attribute_quotes.go:10-60 | For every tag, whatever its bytes: the attributes which the states of sections 13.2.5.32 to 13.2.5.40 of the HTML standard find, in order, with their quotes and with their names lowered; nothing for a tag that ends inside quotes. |
| `AttributeQuotes.LowersTheAlphabet` | pkg/context/attribute_quotes.go:30-30 | On ASCII, lowering maps the 26 capital letters to the small ones and changes nothing else. |
| `AttributeQuotes.AgreesWithTheStandardExactlyWhen` | pkg/context/attribute_quotes.go:30-30 | The names are the standard's if and only if lowering gives the standard's name for each of them; for tags in ASCII, if and only if no name contains a NUL, which the standard replaces. |
| `AttributeQuotes.PrintedTagsAreReadBack` | pkg/context/attribute_quotes.go:10-60 | Printing well-formed attributes with any spaces, tabs, line feeds, form feeds and carriage returns before them, around `=` and before `>`, or with slashes between them, and tokenizing the tag gives back their names and quotes in order, and the scanner reports exactly these, lowered. |
| `Crawling.Crawler.Crawl` | pkg/crawler/crawler.go:122-220 | URLs come in breadth-first order and once each, by distance through the pages whose fetch succeeds, whichever fail, for instance because of a cancellation during the level; every distance is complete before the next begins; their number is the smaller of the page cap and the number within the depth, whatever the order in which fetches finish; a crawl cancelled between levels returns complete levels; every URL is in scope, and of the start's origin when the crawl is limited to its host. |
| `Crawling.Crawler.ReachIsTold` | pkg/crawler/crawler.go:149-209 | Within a distance lie exactly the permitted URLs among the start and the links found on pages fetched before. |
| `Crawling.Crawler.ReachOfAFixedWeb` | pkg/crawler/crawler.go:171-209 | If a page has the same links at whatever level it is fetched, fetching every page once is enough: the distances are those of plain reachability. |
| `Crawling.Crawler.Admit` | pkg/crawler/crawler.go:149-169 | The serial phase takes every admitted unvisited URL of the level, once, up to the page cap. |
| `Crawling.Crawler.FetchLevel` | pkg/crawler/crawler.go:225-278 | The links found are the union over the pages, for every order of completion. |
| `Crawling.Crawler.ReachStops` | pkg/crawler/crawler.go:142-142 | Once a level brings nothing new no later level does, so stopping at an empty level loses nothing. |
| `Grouping.GroupsArePartition` | pkg/scanner/verification.go:29-47 | Groups are a partition: every position in exactly one group, groups in list order. |
| `Verification.BeforeIsAWeakOrder` | pkg/scanner/verification.go:50-57 | The sorting criterion is a strict weak order, so sorting is meaningful. |
| `Verification.ArrangementIsUnique` | pkg/scanner/verification.go:48-59 | A group has exactly one stable arrangement. |
| `Verification.GroupCandidates` | pkg/scanner/verification.go:29-61 | Candidates are partitioned by key in first-seen order: two are in one group exactly if they agree in the fields of the key. In each group supported candidates come first, then shorter payloads, then verified ones, then greater confidence, then the earlier ones. |
| `Verification.VerifyCandidateGroup` | pkg/scanner/verification.go:65-109 | For every cancellation point and every verifier: one verified finding of the first successful candidate with all payloads of the group, or all findings of the group, unverified. |
| `Verification.CheckedIsHonest` | pkg/scanner/engine.go:755-804 | A candidate counts as verified exactly when the check went through and the payload ran, or when it was marked before and the check went through without seeing it run, where the code keeps the old mark; failures are never hidden and leave no trace of a proof; confidence stays between 0 and 1. |
| `Verification.UnverifiedFindings` | pkg/scanner/verification.go:122-128 | The same candidates in the same order, none verified, each with the reason. |
| `VerificationRun.InvStep` | pkg/scanner/verification.go:156-207 | Every step of dispatcher, workers and cancellation keeps: each group handed over is with exactly one worker or has its result. |
| `VerificationRun.NoDeadlock` | pkg/scanner/verification.go:164-202 | Until the run is over something other than a cancellation can happen. |
| `VerificationRun.MeasureFalls` | pkg/scanner/verification.go:164-202 | Every step leaves less to do, so every run ends. |
| `VerificationRun.NoGroupIsLost` | pkg/scanner/verification.go:202-226 | Whenever the context is cancelled, every group is reported as one verified finding or with all its findings; groups counted as not started are unverified, as completed carry no error, as failed or canceled carry one, canceled only under a cancellation; the counts add up to the plan. |
| `VerificationRun.EveryHandOverIsAnswered` | pkg/scanner/verification.go:188-202 | Every group handed over has a result when the run is over. |
| `VerificationRun.UncancelledRunsStartEverything` | pkg/scanner/verification.go:156-227 | Without a cancellation every group is started. |
| `Findings.ScoresFollowTheRatings` | pkg/model/severity.go:13-28 | Severities score by their place among critical, high, medium, low and info; any other text scores below all of them. |
| `Findings.BetterIsAWeakOrder` | pkg/scanner/dedup.go:210-218 | The comparison is a strict weak order by proof and then confidence; its last branch never decides. |
| `Findings.BestIsUnique` | pkg/scanner/dedup.go:210-218 | A group has only one earliest best finding. |
| `Dedup.SemanticDedup` | pkg/scanner/dedup.go:225-256 | For every key in first-seen order exactly the earliest best finding is kept: no two kept ones agree in the fields of the key, and every finding agrees with one. |
| `Dedup.DedupIsIdempotent` | pkg/scanner/dedup.go:225-256 | Deduplicating twice changes nothing. |
| `Aggregation.AggregateFindings` | pkg/scanner/dedup.go:265-359 | One line per key in first-seen order, standing for its group: payloads are the union without repetition, severity is the worst, verified exactly if a member is, with the proven finding's evidence and payload in front; findings share a line exactly if they agree in the fields of the key, and a line is critical if one of them is, otherwise high if one is, and so on. |
| `Aggregation.Absorb` | pkg/scanner/dedup.go:299-320 | Taking in one more finding keeps an entry right for its group. |
| `Aggregation.Line` | pkg/scanner/dedup.go:324-356 | The report line of an entry stands for its group. |
| `PayloadBudget.SharesAreTaken` | pkg/scanner/payload_budget.go:36-46 | After any number of rounds and groups, exactly the first payloads of every group have been taken, in order. |
| `PayloadBudget.EverythingIsPicked` | pkg/scanner/payload_budget.go:36-37 | Enough rounds pick everything, so a binding budget is always reached. |
| `PayloadBudget.LimitPayloads` | pkg/scanner/payload_budget.go:11-48 | A budget that does not bind changes nothing; a binding one selects exactly that many different payloads, an initial stretch of every group, and no group gets more than one beyond a group that is not used up; payloads are of one group exactly if their kind and their opening agree. |
| `RequestBudget.GrantsAreExact` | pkg/requestbudget/budget.go:22-33 | In every interleaving the counter equals the grants, and of the completed calls exactly as many were granted as a positive limit allows. |
| `RequestBudget.RecordIsExact` | pkg/requestbudget/budget.go:22-33 | For every schedule: the calls granted, the swaps failed and the calls denied are counted exactly, step by step. |
| `RequestBudget.DenialIsPermanent` | pkg/requestbudget/budget.go:22-33 | After a denial no call is granted any more, and exactly the limit was granted. |
| `RequestBudget.EveryFailureIsExplained` | pkg/requestbudget/budget.go:29-31 | For every schedule and every swap that fails in it, another task's swap succeeded after this task's latest load. |
| `RequestBudget.FailuresAreExplained` | pkg/requestbudget/budget.go:22-33 | Together: at most as many failed swaps as other tasks per grant, so with a positive limit retrying comes to an end under every schedule. |
| `RequestBudget.Counter.Take` | pkg/requestbudget/budget.go:22-33 | One call among any rivals: it ends, counts itself exactly once as granted or denied, and is denied only at the limit. |
| `Observation.ObservationLog.Record` | pkg/scanner/observation.go:192-218 | Every counter agrees with what was recorded in this run: total, dropped, endings and their sum, samples per path; a sample is dropped exactly if its path would be the 129th, or 32 samples of its path or 256 in all are kept, and otherwise kept with its texts cut at 512 and 256, which is marked; a record of another run changes nothing. |
| `Observation.ObservationLog.Begin` | pkg/scanner/observation.go:162-184 | Run and attempt numbers are given out, and nothing recorded changes. |
| `Observation.ObservationLog.Reset` | pkg/scanner/observation.go:151-161 | A new run starts with nothing recorded. |
| `Observation.ObservationLog.Find` | pkg/scanner/observation.go:228-240 | The sample found is the latest with the id, and id 0 finds none. |
| `Observation.RecordedIsExact` | pkg/scanner/observation.go:142-240 | In every interleaving of announcing, recording and starting over: looking up an attempt recorded in the current run finds what was kept of it and of no other, or nothing if it was dropped. |
| `Observation.EarlierIdsFindOthers` | pkg/scanner/observation.go:151-240 | Looking up the id of an attempt of an earlier run finds an attempt of the current run, so another one, if and only if the current run holds a sample with that id. |
| `Observation.UnrecordedIsNotFound` | pkg/scanner/observation.go:228-240 | An attempt of this run that was not recorded yet is not found. |
| `Observation.LateRecordsAreIgnored` | pkg/scanner/observation.go:195-197 | Recording an attempt of an earlier run leaves log and numbering as they are. |

## Left out

- HTTP transport, Chrome, DNS, file access, the command line, YAML, progress output and reports are not modelled.
- The JavaScript parsers, tree traversal, syntax validation and the complexity limits in `parseUncached` (pkg/jsanalysis/analyzer.go:83-253) are behind the parameter `parse` or behind the list of literals.
- Panics of the parser and of workers are not separate events: a panicking verifier is a report with an error, a panicking attempt is one that finishes.
- FlowSoundness.FlowsCoverEveryRun: not claimed for functions, loops, object creation, compound assignment, updates, a `var` without an initializer after another binding of the name, and names first assigned inside a block: there the code does not track the flow (a loop body is analysed once, a redeclaration clears the value). Properties are read, and methods called, on objects that carry no input; methods also on variables and inputs themselves. Tagged templates are no programs of the model: the code treats them as plain ones.
- FlowSoundness.FlowsCoverEveryRun: requires that an input put into a property that is no sink, or handed to a function that may keep it, is reported at some sink by then, since the code does not follow it there and reports no problem; FlowEscapes.PropertyStoreIsFollowedExactlyWhen, FlowEscapes.HandingOverIsFollowedExactlyWhen and FlowReport.AnalyzePropertyStore give the inputs and the exact conditions.
- FlowSoundness.FlowsCoverEveryRun: an input that has reached a sink may be read back from there and reach another sink; then only the first of these flows is claimed to be reported.
- FlowSoundness.FlowsCoverEveryRun: requires source nodes inside the script and storage keys of at most 128 bytes. For a longer key the property is false of the code, because `source` (pkg/jsanalysis/flow.go:113-119) returns no source and reports no problem; FlowLimits.StorageFlowIsReportedExactlyWhen and FlowReport.AnalyzeStorageWrite give the input and the exact condition.
- FlowAnalysis.FlowAnalyzer.Invoke: exact only for plain arguments and bodies in the fragment. Functions used as values, functions declared inside others or in blocks, names of functions that are assigned or shadowed, and query parameters kept in variables are outside the fragment; there only termination, frames, counters and the contracts that hold in every chain are claimed.
- FlowAnalysis.FlowAnalyzer.Callbacks: a call that hands over a function literal is outside the fragment as a whole.
- AttributeQuotes.AgreesWithTheStandardExactlyWhen: what `strings.ToLower` does to names outside ASCII is a parameter, so for them the condition is stated name by name.
- Carriage returns count as white space in the reference states, as after the standard's newline normalization.
- Crawling.Crawler.Crawl: for a new crawler (nothing visited yet), without seed discovery, forms, the list of skipped URLs and error collection.
- The sorts of spans and calls by start are library calls; any sorted arrangement of the same spans is allowed.
- ParseCache.ParseCache.Publish: one caller at a time, as under the lock; the interleavings are in SingleFlight on values.
- SingleFlight: a caller that waits is not cancelled, as in the code.
- RequestBudget: the 64-bit wrap-around of an unlimited counter is not modelled.
- RequestBudget.Counter.Take: rivals between load and swap are given as a list of attempts, so this member assumes that they stop; all interleavings are in the transition system, where retrying is shown to end for a positive limit. Without a limit a task may retry as long as others succeed, as in the code.
- Observation: snapshot ordering, response analysis and digests (pkg/scanner/observation.go:242-251 and 255 on) are not modelled.
- Verification.VerifyCandidateGroup: the text of the error for unsupported candidates is shortened, and run errors are not collected.
- VerificationRun: a worker decides on the state of the context once, when it begins a group; the outcome of a group is any that VerifyCandidateGroup may deliver.
- Aggregation.AggregateFindings: fields that no branch touches are carried as they are.
- The finite tables of payloads, contexts, WAF strategies and confidence factors are not modelled.
- Session and cookie handling, path digests and their header ordering are not modelled.
