/** The planning graph: the builder that declares nodes and edges, the compiled graph it
    produces, the route taken after validation, and the once-only construction of the graph. */
module Graph {
  import opened Wrappers
  import opened GraphNodes

  /** The nodes of the pipeline. */
  datatype Node = Planner | Retriever | Scheduler | Validators | Repair | Finalize

  /** Where an edge leads: another node or the end of the run. */
  datatype Target = Goto(node: Node) | End

  /** A conditional edge: the target when the route answers "repair", and when it answers "finalize". */
  datatype Branch = Branch(onRepair: Target, onFinalize: Target)

  /** A compiled graph: declared nodes in order, entry point, fixed edges and conditional edges. */
  datatype CompiledGraph = CompiledGraph(
    nodes: seq<Node>,
    entry: Option<Node>,
    edges: map<Node, Target>,
    conditional: map<Node, Branch>)

  /** The graph builder. */
  class StateGraph {
    var nodes: seq<Node>
    var entry: Option<Node>
    var edges: map<Node, Target>
    var conditional: map<Node, Branch>

    constructor ()
      ensures nodes == [] && entry == None && edges == map[] && conditional == map[]
    {
      nodes, entry, edges, conditional := [], None, map[], map[];
    }

    method AddNode(n: Node)
      modifies this
      ensures nodes == old(nodes) + [n]
      ensures entry == old(entry) && edges == old(edges) && conditional == old(conditional)
    {
      nodes := nodes + [n];
    }

    method SetEntryPoint(n: Node)
      modifies this
      ensures entry == Some(n)
      ensures nodes == old(nodes) && edges == old(edges) && conditional == old(conditional)
    {
      entry := Some(n);
    }

    method AddEdge(from: Node, to: Target)
      modifies this
      ensures edges == old(edges)[from := to]
      ensures nodes == old(nodes) && entry == old(entry) && conditional == old(conditional)
    {
      edges := edges[from := to];
    }

    method AddConditionalEdges(from: Node, branch: Branch)
      modifies this
      ensures conditional == old(conditional)[from := branch]
      ensures nodes == old(nodes) && entry == old(entry) && edges == old(edges)
    {
      conditional := conditional[from := branch];
    }

    method Compile() returns (g: CompiledGraph)
      ensures g == CompiledGraph(nodes, entry, edges, conditional)
    {
      g := CompiledGraph(nodes, entry, edges, conditional);
    }
  }

  /** The route after validation: repair exactly when there are violations. */
  function Route(s: PlanState): (n: Node)
    ensures n == Repair <==> |s.violations| > 0
    ensures n == Finalize <==> s.violations == []
  {
    if |s.violations| > 0 then Repair else Finalize
  }

  /** Where a run goes after node `n` in state `s`: a conditional edge follows the route, a
      fixed edge its target, and a node with no edge ends the run. */
  function Step(g: CompiledGraph, n: Node, s: PlanState): Target {
    if n in g.conditional then
      (if Route(s) == Repair then g.conditional[n].onRepair else g.conditional[n].onFinalize)
    else if n in g.edges then g.edges[n]
    else End
  }

  /** The nodes a run visits from `n`, at most `fuel` steps on. The route reads the violations
      of `s`, the state as validation left it. */
  function Run(g: CompiledGraph, n: Node, s: PlanState, fuel: nat): (trace: seq<Node>)
    ensures |trace| >= 1 && trace[0] == n
    decreases fuel
  {
    match Step(g, n, s)
    case End => [n]
    case Goto(m) => if fuel == 0 then [n] else [n] + Run(g, m, s, fuel - 1)
  }

  /** Every target names a declared node, and so does the entry point. */
  predicate WellFormed(g: CompiledGraph) {
    && g.entry.Some? && g.entry.value in g.nodes
    && (forall n :: n in g.edges ==> n in g.nodes && (g.edges[n].Goto? ==> g.edges[n].node in g.nodes))
    && (forall n :: n in g.conditional ==>
          (&& n in g.nodes
           && (g.conditional[n].onRepair.Goto? ==> g.conditional[n].onRepair.node in g.nodes)
           && (g.conditional[n].onFinalize.Goto? ==> g.conditional[n].onFinalize.node in g.nodes)))
  }

  /** Builds the pipeline graph. */
  method BuildGraph() returns (g: CompiledGraph)
    ensures g == Pipeline
  {
    var b := new StateGraph();
    b.AddNode(Planner);
    b.AddNode(Retriever);
    b.AddNode(Scheduler);
    b.AddNode(Validators);
    b.AddNode(Repair);
    b.AddNode(Finalize);
    b.SetEntryPoint(Planner);
    b.AddEdge(Planner, Goto(Retriever));
    b.AddEdge(Retriever, Goto(Scheduler));
    b.AddEdge(Scheduler, Goto(Validators));
    b.AddConditionalEdges(Validators, Branch(Goto(Repair), Goto(Finalize)));
    b.AddEdge(Repair, Goto(Finalize));
    b.AddEdge(Finalize, End);
    g := b.Compile();
  }

  /** The declared graph. */
  const Pipeline: CompiledGraph := CompiledGraph(
    [Planner, Retriever, Scheduler, Validators, Repair, Finalize],
    Some(Planner),
    map[Planner := Goto(Retriever), Retriever := Goto(Scheduler), Scheduler := Goto(Validators),
        Repair := Goto(Finalize), Finalize := End],
    map[Validators := Branch(Goto(Repair), Goto(Finalize))])

  /** The declared graph is well formed and starts at the planner. */
  lemma PipelineWellFormed()
    ensures WellFormed(Pipeline) && Pipeline.entry == Some(Planner)
  {
  }

  /** The visits of a run: the four fixed stages, repair when validation found violations,
      then finalize. */
  function Trace(s: PlanState): seq<Node> {
    [Planner, Retriever, Scheduler, Validators] + (if |s.violations| > 0 then [Repair] else []) + [Finalize]
  }

  /** The declared graph's edges, one node at a time. */
  lemma PipelineSteps(s: PlanState)
    ensures Step(Pipeline, Planner, s) == Goto(Retriever)
    ensures Step(Pipeline, Retriever, s) == Goto(Scheduler)
    ensures Step(Pipeline, Scheduler, s) == Goto(Validators)
    ensures Step(Pipeline, Validators, s) == Goto(Route(s))
    ensures Step(Pipeline, Repair, s) == Goto(Finalize)
    ensures Step(Pipeline, Finalize, s) == End
  {
  }

  /** A run of the declared graph from its entry follows `Trace`. */
  lemma {:induction false} PipelineTrace(s: PlanState)
    ensures Run(Pipeline, Planner, s, 10) == Trace(s)
  {
    var g := Pipeline;
    PipelineSteps(s);
    var last := Run(g, Finalize, s, 5);
    assert last == [Finalize];
    var after := if |s.violations| > 0 then Run(g, Repair, s, 6) else last;
    assert after == (if |s.violations| > 0 then [Repair] else []) + [Finalize];
    assert Run(g, Validators, s, 7) == [Validators] + after;
    assert Run(g, Scheduler, s, 8) == [Scheduler, Validators] + after;
    assert Run(g, Retriever, s, 9) == [Retriever, Scheduler, Validators] + after;
    assert Run(g, Planner, s, 10) == [Planner, Retriever, Scheduler, Validators] + after;
  }

  /** Every run finalizes exactly once and repairs at most once, and repairs exactly when
      validation found violations. */
  lemma TraceCounts(s: PlanState)
    ensures multiset(Trace(s))[Finalize] == 1
    ensures multiset(Trace(s))[Repair] == if |s.violations| > 0 then 1 else 0
    ensures Trace(s)[|Trace(s)| - 1] == Finalize
  {
  }

  /** Holds the compiled graph once it has been built. */
  class GraphCache {
    var compiled: Option<CompiledGraph>

    constructor ()
      ensures compiled == None
    {
      compiled := None;
    }

    /** The compiled graph: built on the first call and returned unchanged afterwards. */
    method GetGraph() returns (g: CompiledGraph)
      modifies this
      ensures old(compiled).Some? ==> g == old(compiled).value && compiled == old(compiled)
      ensures old(compiled).None? ==> compiled == Some(g) && g == Pipeline
    {
      if compiled.Some? {
        return compiled.value;
      }
      g := BuildGraph();
      compiled := Some(g);
    }
  }
}
