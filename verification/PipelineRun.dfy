/**
  From a text to a finished run: parse, compile, execute. And the walks that a caller
  makes over the contexts afterwards.
 */
module PipelineRun {
  import opened Wrappers
  import opened Pointy
  import Parser
  import opened TaskTree
  import opened TaskStore
  import opened TaskGraph
  import opened Programs
  import opened Verdicts
  import opened Semantics
  import opened Engine
  import opened Outcomes
  import opened Runnable
  import opened Interpreter
  import opened Execution
  import opened Events
  import Refinement
  import ContextList

  lemma RootRuns(g: Piece, e: Expr)
    requires Good(g) && IsChainExpr(e) && LowerChain(e).Ok? && Strip(g.t) == SpineTree(LowerChain(e).value)
    ensures Runs(g.h, g.t)
  {
    GoodHolds(g);
    ChainKeyed(e);
    SpineTreeKeyed(LowerChain(e).value);
    StripKeyed(g.t);
    RunsMeans(g.h, g.t);
  }

  /** Runs the graph of a root task on a new pipeline. */
  method Start(root: PipelineTask, w: World, judges: Judges, ghost g: Piece)
    returns (p: Pipeline, q: SinkQueue, ghost r: Run<PipelineTask>)
    requires InMemory(g.h) && Runs(g.h, g.t) && root == g.t.node
    ensures InMemory(g.h) && Mirror(p, q, r) && r == RunPipeline(OracleOf(w, judges), g.t)
    ensures fresh(p) && fresh(q) && fresh(p.repr)
  {
    p := new Pipeline();
    q := new SinkQueue();
    MirrorMeans(p, q, EmptyRun());
    r := ExecuteTask(root, p, q, null, w, judges, g.h, Link(Pointer, g.t), None, EmptyRun());
    ExecutesMeans(OracleOf(w, judges), Link(Pointer, g.t), None, EmptyRun(), r);
  }

  lemma PhraseForm(tokens: seq<Token>, e: Expr)
    requires exists c :: Parser.Spells(c, tokens)
    requires forall c :: Parser.Spells(c, tokens) ==> e == ChainAst(c)
    ensures IsChainExpr(e)
  {
    var c :| Parser.Spells(c, tokens);
    ChainAstForm(c);
  }

  datatype CodeError = BadSyntax | BadGraph

  /** The context objects of a pipeline ran the groups of a trace: the i-th one the i-th group. */
  ghost predicate RanAs(p: Pipeline, trace: Trace)
    reads p, p.repr
  {
    && |p.contexts| == |trace|
    && forall i :: 0 <= i < |trace| ==> multiset(EventsOf(p.contexts[i].taskProfiles)) == multiset(trace[i])
  }

  /** The objects ran the events that the run records, and their links agree. */
  lemma RunObjects(p: Pipeline, o: Oracle, g: Piece)
    requires InMemory(g.h) && Holds(g.h, g.t)
    requires var r := RunPipeline(o, g.t); MirrorList(p, r.contexts, r.head)
    ensures var r := RunPipeline(o, g.t);
      RanAs(p, Refinement.TraceOf(r.contexts)) && ContextList.LinksAgree(r.contexts)
  {
    var r := RunPipeline(o, g.t);
    TreeNamed(g.h, g.t, None);
    ExecNamed(o, g.t, None, EmptyRun());
    ContextList.ExecLinks(o, g.t, None, EmptyRun());
    forall i | 0 <= i < |r.contexts|
      ensures multiset(EventsOf(p.contexts[i].taskProfiles)) == multiset(r.contexts[i].events)
    {
      assert View(p.contexts[i]) == ImagesOf(p.contexts, r.contexts)[i];
      SameEvents(p.contexts[i].taskProfiles, r.contexts[i].tasks);
    }
  }

  /** The graph of a well-formed program, from the tree its tokens parse to. */
  lemma ProgramRuns(p: Program, o: Oracle, t: Tree<PipelineTask>)
    requires WellFormed(p) && IsChainExpr(ProgramAst(p)) && LowerChain(ProgramAst(p)).Ok?
    requires Strip(t) == SpineTree(LowerChain(ProgramAst(p)).value)
    ensures Strip(t) == Graph(p)
    ensures Refinement.TraceOf(RunPipeline(o, t).contexts) == Behaviour(o, p, true, Semantics.Start).trace
  {
    ProgramLowers(p);
    Refinement.RunBehaves(o, t, p);
  }

  /**
    Runs a text. It is refused as syntax exactly when no phrase spells it, and otherwise
    refused exactly when the tree of its phrase cannot be lowered. A text that is run leaves
    its graph `g`, of the shape its tree lowers to, in memory, and the pipeline's context objects mirror the
    engine's run of that graph, events included. The text of any well-formed program is
    run, on the program's graph, and its contexts run the groups of the program's
    behaviour in order.
   */
  method ExecuteCode(tokens: seq<Token>, w: World, judges: Judges)
    returns (result: Result<Pipeline, CodeError>, ghost r: Run<PipelineTask>, ghost g: Option<Piece>)
    ensures result == Err(BadSyntax) <==> !exists c :: Parser.Spells(c, tokens)
    ensures result.Ok? == g.Some?
    ensures forall c :: Parser.Spells(c, tokens) ==>
      && IsChainExpr(ChainAst(c)) && (result.Ok? <==> LowerChain(ChainAst(c)).Ok?)
      && (result.Ok? ==> Strip(g.value.t) == SpineTree(LowerChain(ChainAst(c)).value))
    ensures result.Ok? ==> Holds(g.value.h, g.value.t) && InMemory(g.value.h)
    ensures result.Ok? ==> r == RunPipeline(OracleOf(w, judges), g.value.t)
    ensures result.Ok? ==> MirrorList(result.value, r.contexts, r.head) && ContextList.LinksAgree(r.contexts)
    ensures result.Ok? ==> RanAs(result.value, Refinement.TraceOf(r.contexts))
    ensures forall p: Program :: WellFormed(p) && tokens == Tokens(p, []) ==>
      result.Ok? && Strip(g.value.t) == Graph(p)
      && RanAs(result.value, Behaviour(OracleOf(w, judges), p, true, Semantics.Start).trace)
  {
    r, g := EmptyRun(), None;
    var parsed := Parser.Parse(tokens);
    forall p: Program | WellFormed(p) && tokens == Tokens(p, []) ensures parsed == Ok(ProgramAst(p)) {
      ParseRoundTrip(p);
    }
    if parsed.Err? { return Err(BadSyntax), r, g; }
    PhraseForm(tokens, parsed.value);
    var built;
    built, g := BuildPipeline(parsed.value);
    if built.Err? {
      forall p: Program | WellFormed(p) && tokens == Tokens(p, []) ensures false { ProgramLowers(p); }
      return Err(BadGraph), r, None;
    }
    RootRuns(g.value, parsed.value);
    var pipeline, queue;
    pipeline, queue, r := Start(built.value, w, judges, g.value);
    MirrorMeans(pipeline, queue, r);
    RunObjects(pipeline, OracleOf(w, judges), g.value);
    forall p: Program | WellFormed(p) && tokens == Tokens(p, [])
      ensures Strip(g.value.t) == Graph(p)
      ensures Refinement.TraceOf(r.contexts) == Behaviour(OracleOf(w, judges), p, true, Semantics.Start).trace
    {
      ProgramRuns(p, OracleOf(w, judges), g.value.t);
    }
    return Ok(pipeline), r, g;
  }

  // ------------------------------------------------------------ walks over the contexts

  /** `get_execution_context_head`, on the objects of a finished run. */
  method GetHead(context: EventExecutionContext, p: Pipeline, ghost cs: seq<Context<PipelineTask>>,
                 ghost head: Option<nat>, ghost i: nat)
    returns (first: EventExecutionContext, ghost k: nat)
    requires MirrorList(p, cs, head) && ContextList.LinksAgree(cs) && i < |cs| && context == p.contexts[i]
    ensures k == ContextList.HeadOf(cs, i) && first == p.contexts[ContextList.HeadOf(cs, i)]
  {
    first, k := context, i;
    assert View(p.contexts[k]) == ImageOf(p.contexts, cs[k]);
    while first.previousContext != null
      invariant k < |cs| && first == p.contexts[k] && ContextList.HeadOf(cs, k) == ContextList.HeadOf(cs, i)
      invariant View(p.contexts[k]) == ImageOf(p.contexts, cs[k])
      decreases k
    {
      first, k := first.previousContext, cs[k].prev.value;
      assert View(p.contexts[k]) == ImagesOf(p.contexts, cs)[k];
    }
  }

  /** `get_latest_execution_context`: from the head to the end of the list. */
  method GetLatest(context: EventExecutionContext, p: Pipeline, ghost cs: seq<Context<PipelineTask>>,
                   ghost head: Option<nat>, ghost i: nat)
    returns (last: EventExecutionContext)
    requires MirrorList(p, cs, head) && ContextList.LinksAgree(cs) && i < |cs| && context == p.contexts[i]
    ensures last == p.contexts[ContextList.Latest(cs, i)]
  {
    ghost var k;
    last, k := GetHead(context, p, cs, head, i);
    assert View(p.contexts[k]) == ImagesOf(p.contexts, cs)[k];
    while last.nextContext != null
      invariant k < |cs| && last == p.contexts[k]
      invariant View(p.contexts[k]) == ImageOf(p.contexts, cs[k])
      invariant ContextList.WalkEnd(cs, k) == ContextList.Latest(cs, i)
      decreases |cs| - k
    {
      last, k := last.nextContext, cs[k].next.value;
      assert View(p.contexts[k]) == ImagesOf(p.contexts, cs)[k];
    }
  }
}
