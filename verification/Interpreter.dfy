/**
  `execute_task` in memory: context objects are created and linked in place, the sink
  queue is a mutable stack, and the outcomes of the events come from the environment.
  The run it makes is the run of the engine.
 */
module Interpreter {
  import opened Wrappers
  import opened Pointy
  import opened TaskTree
  import opened TaskStore
  import opened TaskGraph
  import opened TaskQueries
  import opened Queries
  import opened Verdicts
  import opened Engine
  import opened Outcomes
  import opened Runnable

  /** What starting the n-th context gives. */
  type World = nat -> Launch
  /** The evaluation state of each event class. */
  type Judges = string -> Evaluator

  function OracleOf(w: World, j: Judges): Oracle { (n: nat, event: string) => Outcomes.Verdict(w(n), j(event)) }

  datatype SwitchRequest = SwitchRequest(key: nat, configured: bool)

  class EventExecutionContext {
    const taskProfiles: seq<PipelineTask>
    var state: ExecutionState
    /** `execution_result`: one entry for each future handled. */
    var results: seq<Future>
    /** `_errors`: one entry for each erroneous future, or for the failure to start them. */
    var errors: seq<Future>
    var previousContext: EventExecutionContext?
    var nextContext: EventExecutionContext?

    constructor (tasks: seq<PipelineTask>)
      ensures taskProfiles == tasks && state == PendingState && results == [] && errors == []
      ensures previousContext == null && nextContext == null
    {
      taskProfiles, state, results, errors := tasks, PendingState, [], [];
      previousContext, nextContext := null, null;
    }

    /** The task objects of this context are those of the group `g`, in any order. */
    ghost predicate Serves(h: Store<PipelineTask>, g: Tree<PipelineTask>, first: bool) {
      Runs(h, g) && multiset(taskProfiles) == multiset(RunNodes(g, first))
    }

    /** `_get_last_task_profile_in_chain`: finds the task the interpreter continues from. */
    method GetLastTaskProfile(ghost h: Store<PipelineTask>, ghost g: Tree<PipelineTask>, ghost first: bool)
      returns (last: PipelineTask)
      requires InMemory(h) && Serves(h, g, first)
      ensures last == RunLast(g, first).node
    {
      OneOrMore(taskProfiles, g, first);
      if |taskProfiles| == 1 { return taskProfiles[0]; }
      TestFindsLast(h, g, taskProfiles, first);
      var i := 0;
      while i < |taskProfiles|
        invariant 0 <= i <= |taskProfiles|
        invariant forall k :: 0 <= k < i ==> taskProfiles[k] != GroupLast(g).node
      {
        if IsLastInChain(taskProfiles[i]) { return taskProfiles[i]; }
        i := i + 1;
      }
      assert false;
    }

    /** Whether the last task has a branch for a descriptor. */
    method HasDescriptor(key: nat, ghost h: Store<PipelineTask>, ghost g: Tree<PipelineTask>, ghost first: bool)
      returns (configured: bool)
      requires InMemory(h) && Serves(h, g, first)
      ensures SwitchRequest(key, configured) == Request(key, RunLast(g, first))
    {
      var last := GetLastTaskProfile(h, g, first);
      LastRuns(h, g, first);
      DescriptorRuns(h, RunLast(g, first), key);
      configured := FindConfig(last.descriptors, key).Some?;
    }

    /** `process_executor_results`: `futures` in the order in which they are handled. */
    method ProcessExecutorResults(futures: seq<Future>, ghost h: Store<PipelineTask>, ghost g: Tree<PipelineTask>,
                                  ghost first: bool)
      returns (request: Option<SwitchRequest>)
      requires InMemory(h) && Serves(h, g, first)
      requires state == ExecutingState && results == [] && errors == []
      modifies this`state, this`results, this`errors
      ensures var n := Taken(futures);
        && results == futures[..n] && errors == Errors(futures[..n])
        && request == (if Switches(futures) then Some(Request(futures[n - 1].key, RunLast(g, first))) else None)
        && var cancelled := HasStop(futures[..n]) || (request.Some? && !request.value.configured);
        state == if cancelled then CancelledState else ExecutingState
    {
      var i := 0;
      while i < |futures|
        invariant 0 <= i <= |futures| && NoRequest(futures, i)
        invariant results == futures[..i] && errors == Errors(futures[..i])
        invariant state == if HasStop(futures[..i]) then CancelledState else ExecutingState
      {
        Handle(futures, i);
        Record(futures[i]);
        if IsSwitch(futures[i]) {
          var configured := HasDescriptor(futures[i].key, h, g, first);
          if !configured { state := CancelledState; }
          return Some(SwitchRequest(futures[i].key, configured));
        }
        i := i + 1;
      }
      TakenEnd(futures);
      return None;
    }

    /** Files one result; an event that stops the processing cancels the context. */
    method Record(f: Future)
      modifies this`state, this`results, this`errors
      ensures results == old(results) + [f]
      ensures errors == old(errors) + if IsError(f) then [f] else []
      ensures state == if f.RaisedStop? then CancelledState else old(state)
    {
      if f.RaisedStop? { state := CancelledState; }
      results := results + [f];
      if IsError(f) { errors := errors + [f]; }
    }

    /** `dispatch`: runs the events and settles the state of the context. */
    method Dispatch(launch: Launch, ghost e: Evaluator, ghost h: Store<PipelineTask>, ghost g: Tree<PipelineTask>,
                    ghost first: bool)
      returns (request: Option<SwitchRequest>)
      requires InMemory(h) && Serves(h, g, first) && state == PendingState && results == [] && errors == []
      modifies this`state, this`results, this`errors
      ensures var v := Outcomes.Verdict(launch, e); var last := RunLast(g, first);
        && state == EndState(v, last)
        && (!Stopped(state) && v.SwitchTo? ==> request == Some(SwitchRequest(v.key, true)))
        && (!Stopped(state) && !v.SwitchTo? ==>
            request.None? && (v.Failed? <==> ContextEvaluation(e, |results|, |errors|, false)))
    {
      state := ExecutingState;
      match launch
      case LaunchFailed(content) =>
        errors := errors + [Raised(content)];
        state := AbortedState;
        request := None;
      case Launched(futures) =>
        request := ProcessExecutorResults(futures, h, g, first);
        SettledState(futures, e, RunLast(g, first));
        if request.None? && state == ExecutingState { state := FinishedState; }
    }

    method ExecutionFailed(judges: Judges, ghost h: Store<PipelineTask>, ghost g: Tree<PipelineTask>, ghost first: bool)
      returns (failed: bool)
      requires InMemory(h) && Serves(h, g, first)
      ensures failed == (Stopped(state) ||
        ContextEvaluation(judges(RunLast(g, first).event), |results|, |errors|, false))
    {
      if state == CancelledState || state == AbortedState { return true; }
      var last := GetLastTaskProfile(h, g, first);
      LastRuns(h, g, first);
      RunsParts(h, RunLast(g, first));
      return ContextEvaluation(judges(last.event), |results|, |errors|, false);
    }

    method ExecutionSuccess(judges: Judges, ghost h: Store<PipelineTask>, ghost g: Tree<PipelineTask>,
                            ghost first: bool)
      returns (success: bool)
      requires InMemory(h) && Serves(h, g, first)
      ensures success == !(Stopped(state) ||
        ContextEvaluation(judges(RunLast(g, first).event), |results|, |errors|, false))
    {
      if state == CancelledState || state == AbortedState { return false; }
      var last := GetLastTaskProfile(h, g, first);
      LastRuns(h, g, first);
      RunsParts(h, RunLast(g, first));
      return ContextEvaluation(judges(last.event), |results|, |errors|, true);
    }
  }

  ghost function Request(key: nat, last: Tree<PipelineTask>): SwitchRequest {
    SwitchRequest(key, FindLink(last.extras, key).Link?)
  }

  /** The test for the last task of a chain. */
  predicate IsLastInChain(task: PipelineTask)
    reads task, task.parentNode
  {
    GetPointerType(task) == Some(Parallelism) && task.successPipe != Some(Parallelism)
  }

  /** Of the tasks of a group, in any order, exactly the last one passes the test. */
  lemma TestFindsLast(h: Store<PipelineTask>, g: Tree<PipelineTask>, tasks: seq<PipelineTask>, first: bool)
    requires InMemory(h) && Runs(h, g) && multiset(tasks) == multiset(RunNodes(g, first))
    requires !first && StartsParallel(g)
    ensures forall k :: 0 <= k < |tasks| ==> (IsLastInChain(tasks[k]) <==> tasks[k] == GroupLast(g).node)
  {
    forall k | 0 <= k < |tasks| ensures IsLastInChain(tasks[k]) <==> tasks[k] == GroupLast(g).node {
      assert tasks[k] in multiset(tasks);
      LastInMemory(h, g, tasks[k]);
    }
  }

  lemma OneOrMore(tasks: seq<PipelineTask>, g: Tree<PipelineTask>, first: bool)
    requires multiset(tasks) == multiset(RunNodes(g, first))
    ensures |tasks| == |RunNodes(g, first)| >= 1
    ensures |tasks| == 1 ==> tasks[0] == RunLast(g, first).node
    ensures |tasks| > 1 ==> !first && StartsParallel(g) && exists k :: 0 <= k < |tasks| && tasks[k] == GroupLast(g).node
  {
    var ns := RunNodes(g, first);
    assert |multiset(tasks)| == |tasks| && |multiset(ns)| == |ns|;
    if |tasks| == 1 {
      assert ns == [g.node];
      assert tasks[0] in multiset(tasks);
      assert tasks[0] in ns;
    }
    GroupLastIn(g);
    assert !first ==> GroupLast(g).node in multiset(ns);
  }

  lemma LastRuns(h: Store<PipelineTask>, g: Tree<PipelineTask>, first: bool)
    requires Runs(h, g)
    ensures Runs(h, RunLast(g, first))
  {
    RunsMeans(h, g);
    GroupLastRuns(h, g);
    RunsMeans(h, GroupLast(g));
  }

  /** None of the first `n` futures asks for a switch. */
  ghost predicate NoRequest(fs: seq<Future>, n: nat)
    requires n <= |fs|
  {
    forall k :: 0 <= k < n ==> !IsSwitch(fs[k])
  }

  /** What handling the i-th future adds. */
  lemma Handle(fs: seq<Future>, i: nat)
    requires i < |fs| && NoRequest(fs, i)
    ensures fs[..i + 1] == fs[..i] + [fs[i]]
    ensures HasStop(fs[..i + 1]) == (HasStop(fs[..i]) || fs[i].RaisedStop?)
    ensures Errors(fs[..i + 1]) == Errors(fs[..i]) + if IsError(fs[i]) then [fs[i]] else []
    ensures IsSwitch(fs[i]) ==> Taken(fs) == i + 1 && Switches(fs)
    ensures !IsSwitch(fs[i]) ==> NoRequest(fs, i + 1)
  {
    OneMore(fs, i);
    OneMoreError(fs[..i], fs[i]);
    OneMoreStop(fs[..i], fs[i]);
    OneMoreRequest(fs, i);
  }
  lemma OneMore(fs: seq<Future>, i: nat)
    requires i < |fs|
    ensures fs[..i + 1] == fs[..i] + [fs[i]]
  {
  }
  lemma OneMoreRequest(fs: seq<Future>, i: nat)
    requires i < |fs| && NoRequest(fs, i)
    ensures IsSwitch(fs[i]) ==> Taken(fs) == i + 1 && Switches(fs)
    ensures !IsSwitch(fs[i]) ==> NoRequest(fs, i + 1)
  {
  }
  lemma OneMoreError(fs: seq<Future>, f: Future)
    ensures Errors(fs + [f]) == Errors(fs) + if IsError(f) then [f] else []
  {
    assert (fs + [f])[..|fs|] == fs;
  }
  lemma OneMoreStop(fs: seq<Future>, f: Future)
    ensures HasStop(fs + [f]) == (HasStop(fs) || f.RaisedStop?)
  {
    if HasStop(fs) {
      var k :| 0 <= k < |fs| && fs[k].RaisedStop?;
      assert (fs + [f])[k].RaisedStop?;
    }
    if f.RaisedStop? { assert (fs + [f])[|fs|].RaisedStop?; }
  }

  lemma TakenEnd(fs: seq<Future>)
    requires NoRequest(fs, |fs|)
    ensures Taken(fs) == |fs| && !Switches(fs) && fs[..|fs|] == fs
  {
  }

  lemma SettledState(fs: seq<Future>, e: Evaluator, last: Tree<PipelineTask>)
    ensures var stop := HasStop(fs[..Taken(fs)]); var v := Outcomes.Verdict(Launched(fs), e);
      && (stop ==> v == Cancelled)
      && (!stop && Switches(fs) ==> v == SwitchTo(fs[Taken(fs) - 1].key))
      && (!stop && !Switches(fs) ==>
          !v.SwitchTo? && EndState(v, last) == FinishedState && fs[..Taken(fs)] == fs)
      && (!stop && !Switches(fs) ==> (v.Failed? <==> ContextEvaluation(e, |fs|, |Errors(fs)|, false)))
  {
  }
}
