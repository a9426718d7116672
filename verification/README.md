# Verified model of Brazier

This project models the parts of Brazier in which the order of events, nesting or arithmetic decide
whether the system is right, and proves properties of them for all inputs, runs and interleavings.
`dafny verify dfyconfig.toml` checks everything.

* **Pipeline runs.** A run is a table of node records (pending, running, success, failed, skipped).
  `Store`, `Scheduler` and `Manager` hold the imperative code: the tables, `Advance`, `Start` and
  `NodeCompleted`, with any database write or dispatch failing. `Scheduler` shows that the loop of
  `Advance` is one simultaneous step over the list it reads. `AtomicRuns` studies whole runs with one
  call at a time: confluence to a recursive meaning, termination, deadlock freedom, exactly which nodes
  stay blocked. `Interleaving` splits the calls into single database operations, with one `Advance` in
  flight and any number of overlapping `NodeCompleted` calls. `SpecRuns` and `SpecInterleavings` carry
  the results over to specifications as the scheduler receives them, confluence at the grain of single
  operations included, and show that the calls of the code are runs of those operations.
* **Topological sort.** `TopoSort` holds the depth-first search and proves that it succeeds exactly on
  closed acyclic graphs; `DepGraph` defines paths, cycles and topological orders.
* **Conditions.** `Conditions` puts the printers of the Go SDK against the parser and the glob of the
  scheduler.
* **Wire format.** `Proto` holds the encoder of the TypeScript SDK. `Utf8`, `Wire` and `Decoder` are an
  independent reader, after RFC 3629 section 3 and the Protocol Buffers Encoding specification (sections
  "Base 128 Varints", "Message Structure" and "Length-Delimited Records"). `ProtoRoundTrip` connects them;
  `Utf16` says which strings of the SDK's language survive the way through their scalar values, and
  `ProtoSample` gives the bytes of two messages.
* **Agents.** `Registry` holds the greedy allocator; `Loads` proves conservation and optimality.
* **Logs, client, environment.** `Logs` follows the ordered log with the cursor of the log stream;
  `Framing` is the chunked line reader of the web client; `JobEnv` is secret injection and the merging of
  environments.

Store faults are explicit: a write is applied, lost, or applied although its caller saw an error.
Condition lists enter the scheduling results as an arbitrary boolean function of the list (`Gate`), so
those results hold whatever the conditions mean; `Scheduler.GateOf` is the actual one.

## Where the code and its comments differ

The model follows the code.

* `internal/pipeline/scheduler.go:32-33` calls `Advance` idempotent. A second call can launch a node
  that the first one unblocked by skipping another (`Scheduler.AdvanceIsNotIdempotent`);
  `Scheduler.SecondAdvance` says exactly when it changes nothing.
* `internal/pipeline/run.go:101-114`: overlapping reports can complete a run twice
  (`SpecInterleavings.RunCanCompleteTwice`). Only a report finalises, so a run all of whose records are
  terminal, but which was not finalised yet, can still be finalised exactly if a report is in flight that
  can do it (`SpecInterleavings.SpecCompletesIffInFlight`); `SpecInterleavings.FinalisationCanBeLost` is a
  run where none is. What does hold is proved beside these.
* `internal/pipeline/scheduler.go:72-75`: nothing ends a stage's own record, so a specification with a
  stage that has members is never finalised (`SpecInterleavings.SpecStageNeverFinalises`). The results on
  finalised runs speak of specifications whose nodes are jobs, or were skipped and have no members
  (`SpecInterleavings.SpecFinalisedNodes`).
* `internal/registry/registry.go:77` speaks of the agent with the most remaining capacity; the code takes
  the one with the fewest active jobs. `Loads.FewestJobsLeastRoom` is a load where they differ. Until
  another agent registers, they agree in every run exactly if all agents with any capacity have the same
  (`Loads.LeastLoadedIsMostRemainingIff`).
* `internal/executor/executor.go:99-100` speaks of merging into the process environment; the code builds
  the list from the dispatch and the specification alone, and a command (`internal/executor/executor.go:52`)
  inherits the process environment only if that list is empty. It amounts to a merge in every process
  environment exactly if both are empty (`JobEnv.MergesIntoProcessIff`).
* `internal/api/server.go:88` streams the rows of the run with an empty job id, while the rows agents send
  carry the id of their job (`internal/executor/executor.go:75`, `internal/api/server.go:149`). Nothing of
  the run's log stays unsent exactly if no row of the run has a job id (`Logs.RunLogStreamedIff`).

## Model

| member | source | states |
|---|---|---|
| TopoSort.SortSucceedsIff | internal/pipeline/scheduler.go:154-194 | the sort succeeds exactly when every dependency is defined and the graph of the last definitions has no cycle |
| TopoSort.SortSound | internal/pipeline/scheduler.go:182-193 | a successful sort lists each id once, after all its dependencies, as the node behind which the list has no other of that id |
| TopoSort.SortErrorJustified | internal/pipeline/scheduler.go:169-176 | a cycle error names an id on a cycle, an unknown-node error names an undefined dependency of a defined node |
| TopoSort.VisitKeepsMarks | internal/pipeline/scheduler.go:165-186 | one visit keeps the invariant of the visited, stacked and sorted nodes |
| TopoSort.VisitErrorJustified | internal/pipeline/scheduler.go:165-181 | every error of a visit is justified by the path on its stack |
| TopoSort.Sorter.Visit | internal/pipeline/scheduler.go:164-186 | the recursive closure terminates on every graph and does what the specification of the sort says; its calls are one plus the dependency entries of what it expands |
| TopoSort.TopologicalSort | internal/pipeline/scheduler.go:154-194 | the result is the specified sort; there are at most as many calls as nodes plus dependency entries of distinct expanded nodes, and exactly that many on success |
| DepGraph.OrderedIsClosedAcyclic | internal/pipeline/scheduler.go:152-153 | a graph with a topological order has neither undefined dependencies nor cycles |
| DepGraph.ByIdIsLast | internal/pipeline/scheduler.go:155-158 | a node behind which no other has its id is the one stored under the id |
| Conditions.PrintedConditionMeans | sdk/go/brazier.go:196-202 | the scheduler evaluates a printed branch, tag or event condition as a test on the trimmed value, whatever the value contains |
| Conditions.NamesAgreeIffTight | internal/pipeline/scheduler.go:119-136 | printed branch and event conditions mean equality in every context exactly for names without surrounding white space |
| Conditions.SplitsAfterKey | internal/pipeline/scheduler.go:120-124 | the parser splits a printed condition behind its key even when the value contains the separator |
| Conditions.ConditionMeans | internal/pipeline/scheduler.go:119-136 | a condition passes exactly if the text before its first separator is, white space aside, one of the three keys and the text behind it matches that field |
| Conditions.MalformedFails | internal/pipeline/scheduler.go:120-123 | a condition without the separator fails in every context |
| Conditions.PaddedName | internal/pipeline/scheduler.go:124 | blanks, tabs and line ends around a visible name are dropped, and nothing of the name is |
| Conditions.ConditionsCompose | internal/pipeline/scheduler.go:110-117 | two lists joined pass exactly if both pass; the empty list passes, a list of one as its condition |
| Conditions.PrintedConditionsMean | internal/pipeline/scheduler.go:110-136 | a list of printed conditions passes exactly if the branch and the event are every trimmed name and every trimmed pattern globs the tag |
| Conditions.GlobExact | internal/pipeline/scheduler.go:138-150 | the glob is standard star matching on exactly the patterns with at most one star, placed first or last |
| Conditions.GlobMeans | internal/pipeline/scheduler.go:138-150 | for every pattern, more stars included: a star last means a prefix, a star first only a suffix, none at the ends equality |
| Store.Tables.ListNodes | internal/db/sqlite.go:146-164 | the list holds the records of the run, each once, in some order |
| Store.Tables.UpsertNode | internal/db/sqlite.go:120-131 | an upsert writes the record of one node of one run and no other |
| Store.Tables.UpdateRunState | internal/db/sqlite.go:88-94 | an update changes the row of a run that exists and creates none |
| Scheduler.Scheduler.Advance | internal/pipeline/scheduler.go:34-78 | records, calls and events after the call are those of the loop over the list read first, under any write and dispatch failures; with distinct ids and no failed write a pending node with settled dependencies and printed conditions runs exactly if they hold of branch, tag and event, and is skipped if not; other records and runs stay |
| Scheduler.Scheduler.Launch | internal/pipeline/scheduler.go:69-76 | a job is dispatched under its own id, the members of a stage under their joined ids in order |
| Scheduler.Scheduler.Dispatch | internal/pipeline/scheduler.go:80-86 | a dispatch makes one call and publishes its event only if the call succeeded |
| Scheduler.LoopIsSimultaneous | internal/pipeline/scheduler.go:46-77 | with distinct ids the node-by-node loop writes what one simultaneous step over the snapshot writes |
| Scheduler.LoopCalls | internal/pipeline/scheduler.go:69-76 | the loop dispatches exactly the targets of the nodes the snapshot launches |
| Scheduler.LoopDecides | internal/pipeline/scheduler.go:46-77 | the same decision for the loop: running if every printed condition holds, else skipped, any other record unchanged |
| Scheduler.TargetsCarry | internal/pipeline/scheduler.go:69-76 | a job is dispatched with its specification, a member of a stage, in order, under the joined id with the member's |
| Scheduler.LoopCarriesJobs | internal/pipeline/scheduler.go:69-86 | whatever fails, each call is of the run, for a node marked running, and carries its job or the member's |
| Scheduler.LoopUnderFaults | internal/pipeline/scheduler.go:53-77 | whatever writes fail, each record is left alone or gets the state of the simultaneous step, and every call is for a launched node that is marked running |
| Scheduler.AdvanceIgnoresNodeOrder | internal/pipeline/scheduler.go:46-77 | permuting the nodes of the specification changes neither the records nor the multiset of calls |
| Scheduler.LoopAnnounces | internal/pipeline/scheduler.go:80-86 | whatever fails, the events are the dispatches that succeeded, in the order of the calls |
| Scheduler.SecondAdvance | internal/pipeline/scheduler.go:32-77 | a second call acts on no node the first acted on, and changes nothing exactly when no node was left waiting only for nodes the first call skipped |
| Scheduler.AdvanceIsNotIdempotent | internal/pipeline/scheduler.go:32-33 | two jobs and a branch on which two consecutive calls differ from one |
| Manager.Manager.Start | internal/pipeline/run.go:36-77 | a started run has every node and stage member pending and is running; a failed start publishes nothing, leaves only pending records, and the row of the run as the writes made it; other runs are untouched |
| Manager.Manager.SeedNode | internal/pipeline/run.go:49-64 | a node and the members of a stage are seeded, up to the first failed write |
| Manager.Manager.NodeCompleted | internal/pipeline/run.go:80-116 | unless the write is lost the record reads success or failed; if the write succeeds one event tells which, and a completion follows exactly if the list read back is all success, failed or skipped and the update of the run succeeds; the run is failed exactly when some record failed; a failed write publishes nothing |
| Manager.ReportMeans | internal/pipeline/run.go:81-114 | events and row of a report whose write succeeded, read off the records it left |
| Manager.RecordIDsAre | internal/pipeline/run.go:48-64 | the records are those of the nodes and, joined by a slash, of the members of stages |
| AtomicRuns.Confluence | internal/pipeline/scheduler.go:34-101 | every order of Advance and NodeCompleted that comes to rest ends in the recursive meaning of the graph |
| AtomicRuns.MeaningIsUnique | internal/pipeline/scheduler.go:46-67 | the equations blocked, else skipped, else outcome have one solution on a ranked graph |
| AtomicRuns.RunsStaySound | internal/pipeline/run.go:80-116 | every step keeps: a record that left pending had its dependencies settled and is where its conditions and outcome put it, and the final state is published at most once |
| AtomicRuns.EffectiveSteps | internal/pipeline/scheduler.go:46-67 | a run has at most two effective steps for each node |
| AtomicRuns.RestIsReachable | internal/pipeline/scheduler.go:46-67 | every run can be continued until it rests |
| AtomicRuns.DeadlockFree | internal/pipeline/scheduler.go:46-67 | with a pending record and nothing running or failed, an Advance moves a node |
| AtomicRuns.BlockedExactly | internal/pipeline/scheduler.go:88-101 | at rest a node is pending exactly when a chain of dependencies leads from it to a failed node |
| AtomicRuns.DependentsPend | internal/pipeline/scheduler.go:88-101 | in every reachable state the transitive dependents of a failed node are pending |
| AtomicRuns.RoundIsRun | internal/pipeline/run.go:80-116 | an Advance followed by the reports of all running jobs is a run |
| AtomicRuns.RoundsSettle | internal/pipeline/scheduler.go:46-67 | if every job succeeds, k rounds settle every node of rank below k |
| AtomicRuns.FinalisedRun | internal/pipeline/run.go:101-114 | with atomic calls RunCompleted is published at most once, nothing but an Advance without effect follows, the state is failed exactly when some node failed, and nothing depends on a failed node |
| AtomicRuns.CompletedIff | internal/pipeline/run.go:97-114 | a run is completed exactly if some report left every record terminal |
| AtomicRuns.CompletionPublishes | internal/pipeline/run.go:93-114 | a report writes the outcome and completes the run exactly if it leaves every record done, failed exactly if some record failed |
| SpecRuns.CodeStepsAreGraphSteps | internal/pipeline/run.go:48-64 | the seeded records and the simultaneous step of a specification of jobs are the initial state and the step of its graph |
| SpecRuns.SpecConfluence | internal/pipeline/scheduler.go:34-101 | for a specification of jobs that the sort accepts, any two runs at rest have the same records |
| SpecRuns.SpecDeadlockFree | internal/pipeline/scheduler.go:154-194 | for an accepted specification no reachable state is deadlocked |
| SpecRuns.SpecBlockedExactly | internal/pipeline/scheduler.go:88-101 | for an accepted specification the pending nodes at rest are exactly the strict transitive dependents of failed nodes |
| SpecRuns.SpecSettles | internal/pipeline/scheduler.go:46-67 | if every job of an accepted specification succeeds, all nodes settle within as many rounds as there are nodes |
| Interleaving.StepKeeps | internal/pipeline/scheduler.go:35-77 | every single operation keeps the invariant of table, snapshot, dispatches and reports, and every terminal record |
| Interleaving.SnapshotStability | internal/pipeline/scheduler.go:35-77 | over all interleavings and write faults a non-pending node has its dependencies success or skipped, and no id is dispatched twice |
| Interleaving.TerminalStatesStay | internal/pipeline/run.go:88-92 | terminal states are never left |
| Interleaving.FailureContainment | internal/pipeline/scheduler.go:88-101 | once a node has failed its transitive dependents stay pending and undispatched in every later state |
| Interleaving.CyclesNeverRun | internal/pipeline/scheduler.go:50-52 | a node that leads into a cycle or to an undefined dependency is never launched |
| Interleaving.FinalStateAgreed | internal/pipeline/run.go:101-114 | all reports that finalise write the same state; after the first nothing is dispatched and no record changes |
| Interleaving.NoLostFinalisation | internal/pipeline/run.go:88-113 | when the write that closes the run comes from a report, the run is finalised with the state of the table, or that report can still do it, or one of its own operations failed |
| Interleaving.ClosingWriteFinalises | internal/pipeline/run.go:88-113 | from the write of a report that leaves every record terminal on, whatever follows, the run is finalised with the state of the table, or that report can still do it, or one of its operations failed |
| Interleaving.CompletesIffInFlight | internal/pipeline/run.go:88-113 | a run all of whose records are terminal, and which was not finalised yet, can still be finalised exactly if a report that can do it is in flight |
| Interleaving.CompletionsBounded | internal/pipeline/run.go:97-114 | once every record is terminal, no continuation completes the run more often than it has reports in flight that can still do so |
| Interleaving.CompletionsReached | internal/pipeline/run.go:97-114 | that bound is reached by some continuation, so a closed run can complete exactly as often as it has such reports |
| Interleaving.UnreportedNode | internal/pipeline/scheduler.go:71-76 | when every record is terminal, a node that is never dispatched itself was skipped and has nothing to dispatch |
| Interleaving.GatesStay | internal/pipeline/scheduler.go:53-67 | over any interleaving with truthful reports, skipped nodes fail their conditions, launched ones pass them, and success and failure are the outcomes of the jobs |
| Interleaving.UninterruptedAdvance | internal/pipeline/scheduler.go:35-77 | the operations of an Advance that nothing interrupts, whatever its writes come to, make the records and the dispatches of the loop over the nodes in list order |
| Interleaving.CountsOccurrences | internal/pipeline/scheduler.go:80-86 | dispatches are counted: each id as often as it was dispatched |
| Interleaving.MarkedIsLoopedOver | internal/pipeline/scheduler.go:46-77 | with no failed write that loop is the simultaneous step, in any order of the nodes |
| Interleaving.UninterruptedReport | internal/pipeline/run.go:80-116 | the operations of a NodeCompleted that nothing interrupts, whatever they come to, write the record and the row of the run and complete it just as the method does |
| SpecInterleavings.PlanIsFlat | internal/pipeline/run.go:48-64 | distinct record ids make the plan on which interleavings run well formed |
| SpecInterleavings.SpecSnapshotStability | internal/pipeline/scheduler.go:35-77 | snapshot stability for every specification with distinct record ids, stages and cycles included |
| SpecInterleavings.SpecFailureContainment | internal/pipeline/scheduler.go:88-101 | failure containment along every dependency path of the specification |
| SpecInterleavings.SpecDeadEndsNeverRun | internal/pipeline/scheduler.go:50-52 | nodes that lead into a cycle or to a dependency without a record are never launched |
| SpecInterleavings.SpecFinalStateAgreed | internal/pipeline/run.go:101-114 | the finalising reports of a specification agree, and no node of a finalised run depends on a failed one |
| SpecInterleavings.SpecNoLostFinalisation | internal/pipeline/run.go:88-113 | no finalisation is lost when a report closes the run |
| SpecInterleavings.SpecClosingWriteFinalises | internal/pipeline/run.go:88-113 | the same for a specification, from the write that closes the run on |
| SpecInterleavings.UninterruptedIsAtomic | internal/pipeline/scheduler.go:35-77 | an uninterrupted Advance without faults makes the records of the atomic step of the runs over graphs, dispatches what the launched nodes dispatch, and leaves reports and run alone |
| SpecInterleavings.AdvanceIsRun | internal/pipeline/scheduler.go:34-86 | an Advance of the code, whatever its writes and dispatches come to, is a run of single operations with the same records and the same dispatches |
| SpecInterleavings.DispatchedAsCalled | internal/pipeline/scheduler.go:80-86 | an id has been dispatched as often as the code has called the dispatcher for it |
| SpecInterleavings.UninterruptedCompletion | internal/pipeline/run.go:80-116 | an uninterrupted NodeCompleted without faults is one atomic completion, completions included |
| SpecInterleavings.AtomicIsInterleaved | internal/pipeline/run.go:80-116 | every run of atomic calls is an interleaving with truthful reports, with the same records and completions |
| SpecInterleavings.InterleavedConfluence | internal/pipeline/scheduler.go:34-101 | for a specification of jobs every interleaving that comes to rest, whatever writes failed and however reports overlapped, ends in the recursive meaning of the graph |
| SpecInterleavings.InterleavingsAgree | internal/pipeline/run.go:80-116 | for an accepted specification any interleaving and any run of atomic calls that come to rest have the same records |
| SpecInterleavings.SpecCompletesIffInFlight | internal/pipeline/run.go:88-113 | a run of a specification that is all terminal but not finalised can still be finalised exactly if a report is in flight that can do it |
| SpecInterleavings.SpecFinalisedNodes | internal/pipeline/scheduler.go:71-76 | the nodes of a finalised run are jobs, or were skipped and have nothing to dispatch |
| SpecInterleavings.SpecStageNeverFinalises | internal/pipeline/scheduler.go:72-75 | a specification with a stage that has members is never finalised, in any run |
| SpecInterleavings.FinalisationCanBeLost | internal/pipeline/scheduler.go:53-60 | one job whose conditions fail: the Advance skips it, and no continuation finalises the run |
| SpecInterleavings.RunCanCompleteTwice | internal/pipeline/run.go:97-114 | two independent jobs, in any context: two overlapping reports both publish RunCompleted |
| Utf8.RoundTrip | sdk/ts/src/proto.ts:55-58 | decoding undoes the encoding of every sequence of Unicode scalar values |
| Utf16.SurvivesIff | sdk/ts/src/proto.ts:55-58 | a string given as code units decodes to its scalar values, and is itself recovered exactly if every surrogate in it is paired |
| Utf16.LoneSurrogate | sdk/ts/src/proto.ts:55-58 | a surrogate on its own is encoded as U+FFFD |
| Wire.FieldsRoundTrip | sdk/ts/src/proto.ts:60-69 | reading a list of length-delimited records gives back the records |
| Proto.WriteEnvVar | sdk/ts/src/proto.ts:55-58 | appends the non-empty members of the variable |
| Proto.WriteJobSpec | sdk/ts/src/proto.ts:60-69 | appends the fields of a job in the order of the encoder |
| Proto.WriteNode | sdk/ts/src/proto.ts:71-84 | appends the fields of a node, the job before the stage and never both |
| Proto.WriteStageSpec | sdk/ts/src/proto.ts:86-92 | appends one record for each job of a stage |
| Proto.WriteWorkflowRef | sdk/ts/src/proto.ts:94-97 | appends the non-empty members of the reference |
| Proto.EncodePipelineSpec | sdk/ts/src/proto.ts:100-111 | the bytes are the serialised fields of the specification |
| Proto.EncodeWorkflowDAG | sdk/ts/src/proto.ts:114-124 | the bytes are the serialised fields of the workflow |
| Proto.FieldsAscend | sdk/ts/src/proto.ts:55-124 | every message is written in the order of its field numbers |
| Proto.EmptyStringsLeftOut | sdk/ts/src/proto.ts:55-58 | an empty string that is no element of a list is not written |
| ProtoSample.SpecBytes | sdk/ts/src/proto.ts:100-111 | the very bytes of a specification that uses every field |
| ProtoSample.DAGBytes | sdk/ts/src/proto.ts:114-124 | the very bytes of a workflow with a stage |
| ProtoRoundTrip.NodeRoundTrip | sdk/ts/src/proto.ts:71-92 | a node decodes to the message it stands for at any depth of nesting, present but empty jobs and stages included |
| ProtoRoundTrip.PipelineRoundTrip | internal/workflow/executor.go:48-50 | for every specification the bytes decode to the message it stands for |
| ProtoRoundTrip.DAGRoundTrip | sdk/ts/src/proto.ts:114-124 | for every workflow the bytes decode to the message it stands for |
| ProtoRoundTrip.EncodingIsInjective | sdk/ts/src/proto.ts:100-111 | two specifications have the same bytes exactly when they stand for the same message |
| ProtoRoundTrip.DAGEncodingIsInjective | sdk/ts/src/proto.ts:114-124 | two workflows have the same bytes exactly when they stand for the same message |
| ProtoRoundTrip.OneKindBytesDetermine | sdk/ts/src/proto.ts:75-83 | where no node carries both a job and a stage the bytes determine the specification |
| ProtoRoundTrip.StageBesideJobIsLost | sdk/ts/src/proto.ts:75-83 | a node with both is written as if it had only the job |
| Registry.Registry.Connect | internal/registry/registry.go:34-37 | a registering agent stands under its id with no active jobs and the capacity it registered, in place of one of the same id |
| Registry.Registry.Disconnect | internal/registry/registry.go:44-46 | a disconnected agent is forgotten |
| Registry.Registry.LeastLoadedAgent | internal/registry/registry.go:79-90 | whatever the order of the scan, the result is an agent with room and the fewest jobs, or none when none has room |
| Registry.Registry.Dispatch | internal/registry/registry.go:54-69 | a job goes to a least loaded agent and is counted exactly when the send succeeds; the count stays a 32-bit integer |
| Registry.Registry.JobDone | internal/registry/registry.go:93-99 | a positive count of a known agent goes down by one, nothing else changes |
| Loads.Conservation | internal/registry/registry.go:34-99 | over every run each agent holds between no job and the capacity it registered, and the jobs held are those sent less those released and those dropped with their agent |
| Loads.ConnectedAsRegistered | internal/registry/registry.go:34-99 | after any run an id is connected exactly if it registered and did not disconnect since, with the capacity it registered last and the jobs sent to it since and not released |
| Loads.NoRoomIffUsedUp | internal/registry/registry.go:58-61 | no agents are available exactly when the total capacity is used up |
| Loads.NoAgentsIffHeld | internal/registry/registry.go:58-61 | after any run no agents are available exactly when the jobs held fill all the capacity registered |
| Loads.PlacementsBalance | internal/registry/registry.go:79-90 | placements keep every agent within one job of any agent that has room |
| Loads.GreedyIsOptimal | internal/registry/registry.go:54-90 | after k placements on fresh agents no agent is busier than the busiest of any feasible assignment of k jobs |
| Loads.LeastLoadedIsMostRemainingIff | internal/registry/registry.go:77-90 | from freshly registered agents, and until another registers, every least loaded agent has the most remaining capacity in every run exactly if all positive capacities are equal |
| Loads.FewestJobsLeastRoom | internal/registry/registry.go:77-90 | a load where the least loaded agent is not the one with the most remaining capacity |
| Logs.LogTable.GetLogs | internal/db/sqlite.go:180-200 | the matching rows in time order, ties in append order |
| Logs.MatchingSelects | internal/db/sqlite.go:182-183 | a row is selected exactly if its run and job are the ones asked for, and the selection keeps the order of the appends |
| Logs.LogStream.Tick | internal/api/server.go:88-104 | a tick whose sends succeed sends the rows behind the cursor in order and moves it to the end; else exactly the rows before the first failing send are sent and the cursor stays |
| Logs.OrderedSorts | internal/db/sqlite.go:182-183 | the ordered log is sorted by time and holds exactly the rows |
| Logs.OrderedIsStable | internal/db/sqlite.go:182-183 | rows of the same instant come in the order of the appends |
| Logs.ExactlyOnce | internal/api/server.go:80-104 | if the timestamps of the run's appends with an empty job id never go down, what is sent over any interleaving is those appends up to the cursor, without gap or repeat, also when a failing send ends the stream within a tick |
| Logs.OnlyJoblessSent | internal/api/server.go:88 | whatever the timestamps, only rows of the run with an empty job id are sent |
| Logs.RunLogStreamedIff | internal/api/server.go:88 | after a tick the whole log of the run has been sent, in order, exactly if no row of the run has a job id |
| Logs.TickExactIff | internal/api/server.go:92-104 | a tick leaves exactly the ordered log sent if and only if no row appended since is earlier than one already sent |
| Framing.Stream | web/src/lib/client.ts:39-52 | the values emitted, and whether a message that does not parse ends the stream, depend on the whole body only, not on where it was cut |
| Framing.SplitAppend | web/src/lib/client.ts:45-47 | splitting the buffer with the next chunk continues the splitting of the text read so far |
| Framing.BodyIsReceived | web/src/lib/client.ts:39-52 | messages one to a line, blank lines between them and blanks, tabs or carriage returns around them, are received in order, however the body is cut and whatever unterminated text follows |
| Framing.ObjectIsSendable | web/src/lib/client.ts:48-49 | every JSON object written on one line is such a message |
| Framing.EmittedTight | web/src/lib/client.ts:48-49 | nothing blank is handed to the parser, and nothing with white space at an end |
| Framing.MessagesAreParsed | web/src/lib/client.ts:49 | the values are those of the messages in order, up to the first that does not parse |
| JobEnv.InjectSecrets | internal/secrets/inject.go:14-26 | one variable is appended for each secret before the first the backend does not have, in order, with its value, and success means it had all |
| JobEnv.BuildEnv | internal/executor/executor.go:101-117 | the list is the dispatched variables followed by the specification's first values of the untaken keys |
| JobEnv.Precedence | internal/executor/executor.go:99-117 | reading the list with the last entry winning gives secrets their backend value, other dispatched keys their last value, remaining keys their first value in the specification, unless a key with an equals sign shadows them; then the shadow is read |
| JobEnv.ShadowNone | internal/executor/executor.go:104-105 | no shadow is read exactly if behind every variable whose key goes on after an equals sign stands one of the key itself |
| JobEnv.MergesIntoProcessIff | internal/executor/executor.go:99-100 | the list amounts to a merge into every process environment exactly if the dispatch and the specification have no variables |
| JobEnv.UntakenOnce | internal/executor/executor.go:108-115 | the specification adds no key twice and none that the dispatch has |
| JobEnv.UntakenSelects | internal/executor/executor.go:108-115 | of the specification a variable is kept exactly if its key is neither dispatched nor in an earlier variable, and the kept ones keep their order |

## Left out

- Two Advance calls in flight for one run: both can act on one snapshot; `Interleaving` keeps one in flight.
- The background Advance that Start launches, and the callers of Advance: they are the `List` operation of `Interleaving` and the `Advance` step of `AtomicRuns`, taken at any time.
- Stage completion: nothing in the source moves a stage's own record after it is running, so stages appear in the safety results and not in `AtomicRuns`.
- CancelRun: it writes the run state without regard to finalisation and is not a step of the runs.
- The wiring of results to agents and nodes (`internal/api/server.go:159-162`): the registry and the manager are driven directly.
- Project names, job ids and times in the tables: nothing modelled reads them.
- Interleaving.StepKeeps: takes the remaining nodes of the loop in any order, which includes the order of the list.
- Interleaving.WriteReportKeeps: reports are assumed to come at most once for an id, and only for ids that were dispatched.
- Proto.BinaryWriter.Record: the runtime library refuses lengths of 2^32 and more; varints are unbounded here, in the writer and in the reader.
- Framing.Stream: the decoding of bytes to text is not part of this model, and parsing is an arbitrary partial function.
- JobEnv.Precedence: the key looked up contains no equals sign, as no name of an environment does.
- Wire.GetField: groups are an error, where the runtime would skip them.
- Logs.LogStream.Tick: the ticker, the context and the end of the stream at a terminal run state are left to the caller; a stream is any number of ticks.
- Registry locking, gRPC streams, SQL, HTTP, clocks and identifiers: locked methods are atomic, sends have an arbitrary outcome.
- Secret, artifact, OAuth, session, API-key, webhook, Kubernetes and Nomad code, configuration loading, the command line and the web pages.
