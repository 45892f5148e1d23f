# Nexus: a verified model of the workflow engine

Nexus runs workflows written in Pointy, a small language of task names joined by `->`, `|->`
and `||`, with retry factors and labelled branches. A text is parsed by generated LALR tables
into a syntax tree, compiled into a graph of task objects, and interpreted with a stack of
sinks, while a doubly linked list of execution contexts records what ran. This project models
that path from the token stream to the finished run, and five smaller parts of the engine: the
connection pool, the retry loop, batch rounds, socket frames, and the result index.

How the model is laid out:

- `Syntax`, `BranchGroups`, `Tables`, `Parser`: tokens, syntax trees, the tables as written and
  as expanded, and the shift-reduce machine, shown equivalent to a concrete syntax both ways.
- `TaskTree`, `TaskStore`, `TaskGraph`, `Queries`, `TaskQueries`, `WrittenOrder`, `Fidelity`,
  `Groups`: task objects on the heap, the compiler that links them in place, and the queries on
  the result. A tree is the value of a graph; `Represents` says that the objects hold its fields.
- `Programs`, `Semantics`, `Counterexamples`: well-formed programs, their plain reading
  (`Meaning`), what the interpreter does with them (`Behaviour`), and exactly when these agree.
- `Verdicts`, `Engine`, `Refinement`, `Conservation`, `ContextList`: `execute_task` as a function on trees,
  its agreement with `Behaviour`, and the invariants of all runs.
- `Outcomes`, `Runnable`, `Interpreter`, `Execution`, `Events`, `PipelineRun`: the interpreter over
  objects, shown to make exactly the run of `Engine`; the capstone runs a text end to end.
- `Pool`, `PoolRuns`, `Retry`, `Rounds`, `Batch`, `Framing`, `Results`: the smaller parts.

Verdicts of events, completion order of futures, health of connections, clocks and the amounts
a socket delivers are parameters, so every statement holds for all of them.

Findings, each proved:

- A program does not always run as it reads. `FaithfulIff` gives the exact condition: the first
  task is not joined by `||`; nothing follows a first task that has branches; nothing follows
  a conditional that ends a longer parallel group. `Counterexamples` shows one program for each
  way to fail: the first task neither queues its sink nor starts its parallel group, and the
  sink of a group is read from its first task. The plain reading takes `||` as parallel
  execution after a task without branches only. After a task with branches it is read as
  "then". This is a choice, the one the compiler makes: it files what follows such a task as
  its sink under any operator. So `X -> A(0 -> B, 1 -> C) || D` counts as faithful, with D
  after the chosen branch, although its text can also be taken to ask for D beside A.
- The outcome of a context depends on the order in which its futures complete exactly when a
  configured switch is requested beside a stop or beside another switch (`OrderMatters`);
  `StopOrSwitch` is such a pair. A switch request also ends the handling of futures, so what
  comes after it is not recorded: `RecordedOrder` and `RecordedErrorsOrder` say exactly when the
  results and the errors recorded depend on the order, and `DroppedResult` is a pair of futures
  whose result is recorded in one order and dropped in the other.
- The cleaning of idle connections also closes connections that are in use: `HeldMayBeClosed`
  is a run in which that happens, `HeldClosedIff` says exactly which steps do it.
- With a truthy non-batch value and at least one batch, one submission more is made than there
  are batches, because the consumer writes into the dictionary that is yielded. It carries no
  batch at all (`SubmissionCarries`); `ExtraSubmission` is an example.
- A frame comes back exactly when its eight header bytes arrive in one read and, unless the
  payload is empty, the sender's chunk size is not zero and the receiver's is positive (`RoundTrip`). The header is read only once, so a
  header that arrives in two pieces always loses the frame.
- A filter by an identifier that cannot be hashed fails, while the scan that it replaces would
  select nothing (`ResultSet.Filter`).
- The docstring of `send_data_over_socket` announces a `TypeError` for a chunk size that is not
  positive. The code raises none and takes the absolute value; the model follows the code.

## Model

| member | source | states |
|---|---|---|
| Pointy.AssignLookup | nexus/parser/ast.py:39-40 | a dictionary assignment changes the looked-up value of its own key and of no other |
| Pointy.SetGroupIdentity | nexus/parser/ast.py:36-38 | filing the branches of a group again into an empty dictionary rebuilds the same dictionary in the same order |
| Pointy.BranchesWellKeyed | nexus/parser/ast.py:20-40 | every entry of a group is filed under the leftmost descriptor of its own branch, once |
| Pointy.MergeBindsWholeBranches | nexus/parser/ast.py:20-54 | n merged branches give a dictionary that binds each descriptor to the whole expression of the last branch with that label |
| BranchGroups.ConditionalGroup.constructor | nexus/parser/ast.py:21-26 | the object built from two expressions holds the dictionary that merging them gives |
| BranchGroups.ConditionalGroup.Extend | nexus/parser/ast.py:21-40 | the object built from a group and an expression holds the merge of all of them |
| BranchGroups.ConditionalGroup.SetValue | nexus/parser/ast.py:28-40 | the recursive walk to the left files the whole initial value under the descriptor it reaches, and nothing if it reaches none |
| BranchGroups.ConditionalGroup.MergeGroup | nexus/parser/ast.py:36-38 | the loop over a group's branches files each of them in order |
| BranchGroups.ConditionalGroup.GetExtraDescriptors | nexus/parser/ast.py:49-54 | the loop collects exactly the branches labelled neither 0 nor 1, in order |
| Tables.ExpandColumn | nexus/parser/parsetab.py:324-328 | one column fills exactly its states, and leaves every other symbol's entries alone |
| Tables.Expand | nexus/parser/parsetab.py:323-328 | after the nested loops a state has an entry for a symbol exactly when the symbol's column lists the state, with that column's value |
| Tables.BuildActions | nexus/parser/parsetab.py:10-328 | the expanded literal action table equals the machine's action function for every state and terminal |
| Tables.BuildGotos | nexus/parser/parsetab.py:331-471 | the expanded literal goto table equals the machine's goto function for every state and nonterminal |
| Parser.ReduceLowersWeight | nexus/parser/parsetab.py:10-471 | every reduction lowers the weight of the stack, so the driver loop ends on every input |
| Parser.AcceptsEveryPhrase | nexus/parser/parsetab.py:10-471 | on the tokens of any phrase of the concrete syntax the machine accepts and builds that phrase's tree, chains left-nested |
| Parser.AcceptedSpells | nexus/parser/parsetab.py:10-471 | whatever the machine accepts is spelled by some phrase whose tree is the one returned |
| Parser.ReduceMatched | nexus/parser/grammar.py:14-94 | each semantic action keeps the stack equal to a stack of phrases that spell the tokens read so far |
| Parser.TreeIsUnique | nexus/parser/grammar.py:11 | two phrases with the same tokens have the same tree: the precedence line removes the ambiguity |
| Parser.Parse | nexus/parser/grammar.py:14-94 | the driver answers with a tree if and only if some phrase spells the tokens, and then with that phrase's tree |
| Programs.ParseRoundTrip | nexus/parser/grammar.py:11-94 | the tokens of every well-formed program parse back to the program's tree |
| Programs.ProgramLowers | nexus/task.py:857-967 | every well-formed program compiles without error, to the graph the program stands for |
| Programs.AtomLinks | nexus/task.py:934-961 | branch 0 is the failure link, branch 1 the success link, and every other branch the custom link of its own label |
| Programs.ConditionalAtom | nexus/task.py:726-730 | in a compiled program exactly the tasks with branches are conditional |
| Programs.GraphSize | nexus/task.py:857-967 | the graph of a well-formed program has one task for each name in the program |
| TaskTree.GroupParts | nexus/task.py:924-963 | a group compiles if and only if its entries 0 and 1 and all its custom branches do, and then to exactly these parts |
| TaskTree.BranchRootMark | nexus/task.py:913-916 | the label and operator under which a branch is filed are the mark its first task carries |
| TaskTree.ChainAstForm | nexus/parser/grammar.py:14-94 | every parsed phrase has the shape the compiler relies on |
| TaskStore.JoinRepresents | nexus/task.py:888-895 | linking a right operand behind the tail gives the graph of the longer chain, and no other node changes |
| TaskStore.ParentOf | nexus/task.py:981-984 | every node but the first has a parent in the graph, nearer to the first, so walking parents ends there |
| TaskStore.PreorderOnce | nexus/task.py:1013-1019 | the traversal of a graph yields each of its nodes exactly once |
| TaskGraph.PipelineTask.constructor | nexus/task.py:680-707 | a new task has no links, mark, retries or descriptors |
| TaskGraph.PipelineTask.SetNext | nexus/task.py:888-893 | the right operand becomes the sink of a conditional task and the success event of any other, and no other field changes |
| TaskGraph.PipelineTask.SetBranch | nexus/task.py:936-948 | label 0 sets the failure event, any other the success event, with the label's operator |
| TaskGraph.PipelineTask.AddDescriptor | nexus/task.py:620-626 | keys 2 to 9 are assigned in the dictionary, any other is refused and changes nothing |
| TaskGraph.PipelineTask.GetRoot | nexus/task.py:981-984 | from any task of a graph the walk ends at the graph's first task |
| TaskGraph.ParseAst | nexus/task.py:857-967 | on every parser output it fails exactly when some branch 2 to 9 is not a single operand or a conditional has no plain name; otherwise it returns the tail of a new graph of distinct objects with the lowered shape |
| TaskGraph.ParseBinOp | nexus/task.py:873-917 | chains, labels and retry factors each build their graph in place |
| TaskGraph.ParseConditional | nexus/task.py:924-963 | a new parent adopts branches 1 and 0 and then the custom branches |
| TaskGraph.ParseCustoms | nexus/task.py:950-961 | the loop adds each custom branch under its own label, and stops at the first that cannot be built |
| TaskGraph.BuildPipeline | nexus/task.py:852-854 | the root heads a graph of new, distinct objects whose links agree both ways and whose shape is the program's; it fails exactly on trees that cannot be lowered |
| Queries.PointersHold | nexus/task.py:1021-1048 | asking any task of a graph for the operator to it gives the operator of the link that leads to it |
| WrittenOrder.GraphKeepsOperators | nexus/task.py:877-895 | occurrence by occurrence in written order, the tasks of a program's graph have the names of the text, and the links to them the operators written before those names |
| WrittenOrder.ProgramWritten | nexus/task.py:857-967 | the same inside any surrounding text, for the compiled form of any part of a program |
| WrittenOrder.ReportsLinks | nexus/task.py:1021-1048 | in written order, what the tasks report is the operators of the links to them |
| WrittenOrder.Covers | nexus/task.py:969-979 | every task of the graph has a place in the written order |
| Queries.GroupHead | nexus/task.py:796-804 | every member of a parallel group resolves to the same first task |
| Queries.OnlyLastLooksLast | nexus/task.py:404-412 | of the members of a group exactly the last one passes the test for the last one |
| TaskQueries.BfTraversal | nexus/task.py:1013-1019 | the recursive traversal of the objects is the preorder of the graph |
| TaskQueries.GetTaskCount | nexus/task.py:1001-1004 | from any task, the count is the number of tasks in the whole graph |
| Fidelity.OperatorFidelity | nexus/task.py:1021-1048 | in written order each task of the compiled graph occurs once, has the name written at its place, and reports the operator written before that name, also when names repeat |
| Fidelity.GraphIsTree | nexus/task.py:969-1019 | each task name gives exactly one node, each visited once |
| Groups.GetParallelNodes | nexus/task.py:783-794 | a task in a group answers with the group from itself on, in order; any other task with nothing |
| Groups.GatherAgrees | nexus/task.py:1086-1091 | the set a dispatch gathers has the members of `get_parallel_nodes`, and the interpreter goes on from the last of them |
| Groups.GetParallelHead | nexus/task.py:796-804 | walking parents finds the first task of the group |
| Groups.PreviousResult | nexus/task.py:365-377 | an event receives nothing unless the resolved operator is `\|->`, and then the results of the previous context, or the empty marker if there is none |
| Groups.GroupSharesOperator | nexus/task.py:365-377 | all members of a group resolve to the operator before its first task, so all or none receive the previous result |
| Semantics.BelowAgrees | nexus/task.py:1050-1165 | below the first task, a faithful part runs what the plain reading runs |
| Semantics.FirstAgrees | nexus/task.py:1050-1165 | from the first task, a faithful program runs what the plain reading runs |
| Semantics.LostFirst | nexus/task.py:1073-1091 | for every unfaithful program there are verdicts, none of them a stop, under which the run differs from the reading |
| Semantics.FaithfulIff | nexus/task.py:1050-1165 | a well-formed program runs as it reads for all verdicts that stop nothing if and only if it is faithful |
| Counterexamples.FirstConditionalLosesRest | nexus/task.py:1073-1078 | in `A(0 -> B, 1 -> C) -> D` the task D never runs |
| Counterexamples.FirstGroupRunsApart | nexus/task.py:1073-1091 | in `A \|\| B` the two tasks run one after the other |
| Counterexamples.GroupLosesSink | nexus/task.py:1077-1091 | in `X -> A \|\| B(0 -> C, 1 -> D) -> E` the task E never runs |
| Engine.NextIsSmaller | nexus/task.py:1050-1165 | what a task queues and goes on with is smaller than the task |
| Engine.Exec | nexus/task.py:1050-1165 | every run ends, and creates no more contexts than there are tasks below the task and below the queued sinks |
| Engine.Drain | nexus/task.py:1156-1165 | the loop ends with an empty queue, also when contexts inside it are stopped |
| Refinement.ExecBehaves | nexus/task.py:1050-1165 | running a compiled task and then the queue dispatches what its program and then the stacked programs dispatch, for all verdicts including stops and switches |
| Refinement.RunBehaves | nexus/task.py:1050-1165 | the contexts of a whole run are the groups that `Behaviour` gives; the queue ends empty unless a stop ended the run |
| Refinement.FaithfulRun | nexus/task.py:1050-1165 | a faithful program dispatches the groups of its plain reading in order and leaves the queue empty |
| Refinement.CompilationPreservesMeaning | nexus/task.py:857-1165 | the compiled graph runs as the text reads, for all verdicts that stop nothing, if and only if the program is faithful |
| Conservation.ExecSpends | nexus/task.py:1050-1165 | dispatches of a node and its occurrences below queued sinks never exceed those before plus its occurrences below the task |
| Conservation.DispatchedAtMostOnce | nexus/task.py:1050-1165 | in every run, with any stops and switches, each task is dispatched at most once and at most as many contexts are created as there are tasks |
| ContextList.DispatchLinks | nexus/task.py:1073-1100 | every dispatch keeps the neighbours agreeing and the links leading from older to newer contexts |
| ContextList.ExecLinks | nexus/task.py:1050-1165 | so does every run |
| ContextList.ExecThreads | nexus/task.py:1073-1131 | unless a stop came earlier, the live contexts stay threaded from the head in dispatch order |
| ContextList.ListIsDispatchOrder | nexus/task.py:563-581 | the walk from the head is the dispatch order without switched-away contexts; from each context on it the head is the pipeline's and the latest is the last dispatched |
| ContextList.DescendThenDrain | nexus/task.py:1050-1165 | a run is its descent to the end of a chain and then, unless that was stopped, the drain loop |
| ContextList.StopSafety | nexus/task.py:1104-1112 | a context stopped before the drain loop is the last one dispatched and the latest on the list, and no other was stopped |
| Outcomes.SuccessIsNotFailure | nexus/base.py:310-361 | for each evaluator and all counts, success is exactly the negation of failure |
| Outcomes.RecordedOrder | nexus/task.py:476-535 | what a context records is the same for every order of completion if and only if no future requests a switch or all futures are alike |
| Outcomes.RecordedErrorsOrder | nexus/task.py:510-535 | the errors recorded are the same for every order if and only if no future requests a switch, or the erroneous futures and the switch requests all leave the same errors |
| Outcomes.DroppedResult | nexus/task.py:522-535 | of a result and a switch request, the result is recorded if it is handled first and dropped otherwise |
| Outcomes.OrderMatters | nexus/task.py:476-535 | the outcome is the same for all completion orders if and only if no configured switch is requested beside a stop or a different switch |
| Outcomes.StopOrSwitch | nexus/task.py:476-535 | a stop and a switch to a configured branch: handled in one order they cancel, in the other they switch |
| Outcomes.DefaultVerdict | nexus/task.py:230-246 | without switch requests and under the default evaluator, a context succeeds exactly when it has futures and none erred, and is cancelled exactly when some future stops the processing |
| Runnable.ChainKeyed | nexus/task.py:620-626 | every compiled graph files its custom branches under 2 to 9 |
| Runnable.LastInMemory | nexus/task.py:404-412 | on the objects, exactly the last task of a gathered group passes the test for the last one |
| Interpreter.EventExecutionContext.GetLastTaskProfile | nexus/task.py:387-412 | whatever the order of the task list, it returns the task the interpreter continues from |
| Interpreter.EventExecutionContext.ProcessExecutorResults | nexus/task.py:465-535 | the results recorded are the handled futures and the errors the erroneous ones, in order; a stop cancels; the first switch request ends the loop and cancels if its descriptor is not configured |
| Interpreter.EventExecutionContext.Dispatch | nexus/task.py:420-463 | the context ends finished, cancelled, aborted or switching exactly as the verdict of its futures says |
| Interpreter.EventExecutionContext.ExecutionFailed | nexus/task.py:230-237 | a stopped context failed; any other is judged by the evaluator of the last task |
| Interpreter.EventExecutionContext.ExecutionSuccess | nexus/task.py:239-246 | success is the negation of failure |
| Execution.GatherParallel | nexus/task.py:1080-1096 | the gathered list is the group, each task once, and the loop stops at its last task |
| Execution.StartContext | nexus/task.py:1072-1100 | the first task gets a context of its own as the head; any other queues its sink, takes its group and is linked behind the previous context |
| Execution.NextTask | nexus/task.py:1114-1154 | the task that follows; a switch that passed the descriptor check always has a target, so the switching error is unreachable |
| Execution.ExecuteTask | nexus/task.py:1050-1165 | the objects after the call mirror the engine's run: contexts, states, links, head and queue |
| Execution.ClearSinks | nexus/task.py:1156-1165 | the loop pops sinks last in first out and goes on after a stop inside it |
| PipelineRun.Start | nexus/task.py:1050-1165 | a run on a new pipeline is the engine's run of the whole graph |
| Events.ExecNamed | nexus/task.py:1050-1165 | in every run the events recorded for a context are the events of its task objects |
| PipelineRun.RunObjects | nexus/task.py:1050-1165 | the task lists of the context objects have, as unordered lists, the events of the run's groups, and the run's links agree |
| PipelineRun.ExecuteCode | nexus/task.py:826-854 | a text is refused as syntax exactly when no phrase spells it, and otherwise refused exactly when the tree of its phrase cannot be lowered; a text that is run leaves in memory the graph that its tree lowers to, and context objects that mirror the engine's run of that graph, the i-th running tasks with the events of the i-th group; the text of every well-formed program is run on the program's graph, and its contexts run the groups of the program's behaviour |
| PipelineRun.GetHead | nexus/task.py:563-571 | walking back over the objects gives the head of the run's list |
| PipelineRun.GetLatest | nexus/task.py:573-581 | walking forward from there gives the latest context of the run's list |
| ConnectorPool.PooledConnectorManager.GetAvailableConnection | nexus/mixins/utils/connector.py:396-422 | some available connection is taken; it is handed out if tracked and healthy, else closed and forgotten; none is handed out if none is available |
| ConnectorPool.PooledConnectorManager.InsertConnection | nexus/mixins/utils/connector.py:424-440 | a new connection and its statistics are filed under its identifier |
| ConnectorPool.PooledConnectorManager.ReleaseConnection | nexus/mixins/utils/connector.py:326-345 | a tracked connection becomes available, any other is closed, and the permit is returned in both cases |
| ConnectorPool.PooledConnectorManager.GetConnection | nexus/mixins/utils/connector.py:301-324 | success costs one permit, failure none; a creation that succeeds is always returned |
| ConnectorPool.PooledConnectorManager.ExecuteWithRetry | nexus/mixins/utils/connector.py:347-378 | for all outcomes, and whatever other threads do before each attempt and during each call, the thread returns every permit it takes, and on its own leaves the semaphore as it found it; the method is called exactly in the attempts that obtain a connection; an attempt without a permit obtains none and one that can create a connection does; the answer is the first success or the last failure |
| ConnectorPool.PooledConnectorManager.CleanUp | nexus/mixins/utils/connector.py:452-468 | exactly the connections idle for longer than the timeout are closed and forgotten |
| ConnectorPool.PooledConnectorManager.Shutdown | nexus/mixins/utils/connector.py:380-394 | the first call closes and forgets every tracked connection, later ones do nothing |
| ConnectorPool.CleanedOneMore | nexus/mixins/utils/connector.py:461-468 | closing one more idle connection is one more turn of the loop |
| PoolRuns.StepInv | nexus/mixins/utils/connector.py:301-471 | every step of every thread keeps the pool's invariant |
| PoolRuns.NeverOverLimit | nexus/mixins/utils/connector.py:281-345 | in every interleaving, tracked connections and creations in progress never exceed the limit |
| PoolRuns.AlwaysExclusive | nexus/mixins/utils/connector.py:326-471 | in every interleaving, pool and statistics have the same keys, the available ones are among them, and no connection is held twice or both held and available |
| PoolRuns.HandedOutOpen | nexus/mixins/utils/connector.py:396-422 | a connection handed out has not been closed by the manager |
| PoolRuns.PermitsReturn | nexus/mixins/utils/connector.py:281-345 | in every interleaving each thread accounts for one permit inside and none outside, so the semaphore is full exactly when every thread is outside |
| PoolRuns.HeldMayBeClosed | nexus/mixins/utils/connector.py:452-468 | a run in which cleaning closes a connection in use |
| PoolRuns.HeldClosedIff | nexus/mixins/utils/connector.py:380-468 | exactly the cleaning of an idle connection, or a shutdown, closes a connection that is in use |
| Retry.RetryMixin.Retry | nexus/base.py:155-209 | at most the allowed calls are made; every call but the last was a retryable failure; exhaustion carries the first retryable exception; the sleep is the sum of the backoffs |
| Retry.SleepBounds | nexus/base.py:121-135 | over n failing calls the sleep is at most (n - 1) caps and at most f (2^n - 2), and equals the latter while the cap is not exceeded |
| Batch.BatchesJoin | nexus/default_batch_processors.py:10-25 | joining the batches of a list gives back the list |
| Batch.BatchSizes | nexus/default_batch_processors.py:10-25 | every batch is non-empty and all but the last are full |
| Batch.BatchCount | nexus/default_batch_processors.py:10-25 | the number of batches is the length divided by the size, rounded up |
| Batch.RoundGenerator.Next | nexus/pipeline.py:1147-1189 | a round writes the next batch of every field, as a container the field accepts, or nothing for a used-up field, and ends the rounds exactly when all are used up |
| Rounds.RoundStep | nexus/pipeline.py:1158-1189 | a round overwrites what the round before it wrote into the shared dictionary and keeps what the consumer wrote |
| Rounds.RoundTruth | nexus/pipeline.py:1257 | a round has a truthy value exactly when it has a batch, or is the last of several and some non-batch value is truthy |
| Batch.Submit | nexus/pipeline.py:1254-1267 | a round is submitted exactly when it has a batch, or earlier submissions have left a truthy non-batch value in the dictionary; it receives the round's values and all non-batch values |
| Batch.Execute | nexus/pipeline.py:1198-1284 | rounds are one more than the largest batch count, and the dictionaries submitted are exactly `Submissions`, as many as the largest batch count, plus one exactly when that is positive and some non-batch value is truthy; without batch fields one pipeline gets the non-batch values; it is an error exactly when there are batch fields and no batch |
| Batch.SubmissionCarries | nexus/pipeline.py:1254-1267 | submission r carries the batches of round r and every non-batch value; a submission past the last batch carries no batch |
| Batch.ExtraSubmission | nexus/pipeline.py:1254-1267 | one field with one batch and one truthy other value make two submissions |
| Batch.RoundsConserve | nexus/pipeline.py:1158-1189 | joining what a field is given over the rounds gives back its list in order |
| Framing.LengthRoundTrip | nexus/utils.py:253 | a length that fits in the header's bytes is read back as itself |
| Framing.SendData | nexus/utils.py:249-276 | lengths of 2^64 and more are refused and nothing is sent; otherwise header and payload are sent whole, or the header alone for chunk size zero |
| Framing.ReceiveData | nexus/utils.py:297-304 | whatever arrives at each read, the header's included, it takes exactly the number of bytes that the header bytes it got announce, or all there are if the stream ends early; a negative chunk size fails exactly when something is announced |
| Framing.RoundTrip | nexus/utils.py:249-304 | the payload comes back and the receiver stops at the frame's end if and only if the header arrives whole and either the payload is empty or the sender's chunk size is not zero and the receiver's is positive |
| Framing.ShortLength | nexus/utils.py:297 | the first bytes of a length that is not read whole stand for at most a 256th of it |
| Results.PutIndexed | nexus/result.py:210-216 | adding a result keeps every result stored under its own identifier, once |
| Results.RemoveIndexed | nexus/result.py:228-238 | so does removing one, which removes exactly that identifier |
| Results.FindAfter | nexus/result.py:210-238 | a lookup after an addition or a removal differs for that identifier only |
| Results.IndexAgrees | nexus/result.py:285-292 | for every identifier the index selects what the scan selects |
| Results.FilterComposes | nexus/result.py:261-299 | filtering twice, on different keys, is filtering once by both |
| Results.ListOfEntries | nexus/result.py:180-186 | a set made from the results of an indexed set has the same entries in the same order |
| Results.MatchesFilters | nexus/result.py:301-336 | the loop that stops at the first failing filter decides whether all filters hold |
| Results.ResultSet.constructor | nexus/result.py:180-186 | a set made from any list is indexed, later results replacing earlier ones with the same identifier |
| Results.ResultSet.Add | nexus/result.py:210-216 | an added result replaces the one with its identifier in place, or comes last |
| Results.ResultSet.AddAll | nexus/result.py:210-214 | the other set's results are added in order, also when it is the same set |
| Results.ResultSet.Discard | nexus/result.py:228-238 | the identifier is gone and the order of the others is kept |
| Results.ResultSet.DiscardAll | nexus/result.py:228-233 | the results of the other set are removed one after the other; exactly a non-empty set removed from itself fails, after its first result |
| Results.ResultSet.Clear | nexus/result.py:223-226 | the set is empty |
| Results.ResultSet.Copy | nexus/result.py:240-245 | a new set with the same entries |
| Results.ResultSet.Filter | nexus/result.py:261-299 | on either path, the new set holds exactly the matching entries in order; it fails exactly for a filter by identifier alone whose value cannot be hashed |
| Results.ResultSet.Get | nexus/result.py:247-259 | the single match, or one error for none, another for several, and the failure of the filter |

## Left out

- Lexer, `ply` runtime, directives and error messages: the model starts from tokens and from the tables.
- Negative numbers as switch targets: they behave like any other descriptor that is not configured.
- Execution of events: an event is its outcome; executors, retries inside an event, signals and telemetry are not part of the interpreter's model.
- Results of events beyond their content: the interpreter records the handled futures themselves; the result set as a collection is modelled in `Results`.
- Locks of a single context: the interpreter's model is one thread, as `execute_task` is.
- PoolRuns.StepInv: connection timeouts are waits without a step, each checkout is released once, and identifiers of live connections are distinct.
- Batch.RoundGenerator.Next: the data types of a field are tuples and lists, which keep the items of a batch; conversions to other types, file streams and memory-driven resizing are not modelled.
- Results.ResultSet.Filter: the test behind a key other than `id` is an arbitrary function, so the operators themselves are not modelled; neither are content types.
- `PipelineState`, DOT and ASCII drawing, remote executors, stores, scheduling and configuration: plumbing around the core, or string output.
