/** From strategy graph to entry signal (`compiler/graphCompiler.ts`), and why the signal means the graph. */
module GraphCompiler {
  import opened Wrappers
  import opened Market
  import opened Indicators
  import opened Signals
  import opened Separation
  import opened SignalLaws

  datatype Node = Node(id: string, blockType: string, params: Params, mode: Option<string>, op: Option<string>)

  datatype Edge = Edge(source: string, target: string, targetHandle: Option<string>)

  datatype Context = Context(
    nodeById: map<string, Node>,
    nodesByType: map<string, seq<Node>>,
    incomingEdges: map<string, seq<Edge>>
  )

  // ----- the raw graph -----

  function EdgesInto(edges: seq<Edge>, id: string): seq<Edge> {
    if edges == [] then []
    else
      var last := edges[|edges| - 1];
      EdgesInto(edges[..|edges| - 1], id) + if last.target == id then [last] else []
  }

  function NodesOf(nodes: seq<Node>, blockType: string): seq<Node> {
    if nodes == [] then []
    else
      var last := nodes[|nodes| - 1];
      NodesOf(nodes[..|nodes| - 1], blockType) + if last.blockType == blockType then [last] else []
  }

  /** The node an id refers to: of several, the last. */
  function NodeWith(nodes: seq<Node>, id: string): Option<Node> {
    if nodes == [] then None
    else if nodes[|nodes| - 1].id == id then Some(nodes[|nodes| - 1])
    else NodeWith(nodes[..|nodes| - 1], id)
  }

  // ----- the index -----

  function Incoming(ctx: Context, id: string): seq<Edge> {
    if id in ctx.incomingEdges then ctx.incomingEdges[id] else []
  }

  function Lookup(ctx: Context, id: string): Option<Node> {
    if id in ctx.nodeById then Some(ctx.nodeById[id]) else None
  }

  /** The index answers every question as a scan of the raw lists would, in list order. */
  ghost predicate Indexes(ctx: Context, nodes: seq<Node>, edges: seq<Edge>) {
    && (forall id :: Incoming(ctx, id) == EdgesInto(edges, id))
    && (forall id :: Lookup(ctx, id) == NodeWith(nodes, id))
    && (forall t :: Listed(ctx.nodesByType, t) == NodesOf(nodes, t))
  }

  function Listed<V>(m: map<string, seq<V>>, key: string): seq<V> {
    if key in m then m[key] else []
  }

  method IndexEdges(nodes: seq<Node>, edges: seq<Edge>) returns (incomingEdges: map<string, seq<Edge>>)
    ensures forall id :: Listed(incomingEdges, id) == EdgesInto(edges, id)
    ensures forall n :: n in nodes ==> n.id in incomingEdges
  {
    incomingEdges := map[];
    for i := 0 to |nodes|
      invariant forall id :: id in incomingEdges ==> incomingEdges[id] == []
      invariant forall n :: n in nodes[..i] ==> n.id in incomingEdges
    {
      incomingEdges := incomingEdges[nodes[i].id := []];
    }
    for i := 0 to |edges|
      invariant forall id :: Listed(incomingEdges, id) == EdgesInto(edges[..i], id)
      invariant forall n :: n in nodes ==> n.id in incomingEdges
    {
      assert edges[..i + 1][..i] == edges[..i];
      var edge := edges[i];
      var known := if edge.target in incomingEdges then incomingEdges[edge.target] else [];
      incomingEdges := incomingEdges[edge.target := known + [edge]];
    }
    assert edges[..|edges|] == edges;
  }

  method IndexNodes(nodes: seq<Node>) returns (nodesByType: map<string, seq<Node>>, nodeById: map<string, Node>)
    ensures forall t :: Listed(nodesByType, t) == NodesOf(nodes, t)
    ensures forall id :: (if id in nodeById then Some(nodeById[id]) else None) == NodeWith(nodes, id)
  {
    nodesByType, nodeById := map[], map[];
    for i := 0 to |nodes|
      invariant forall t :: Listed(nodesByType, t) == NodesOf(nodes[..i], t)
      invariant forall id :: (if id in nodeById then Some(nodeById[id]) else None) == NodeWith(nodes[..i], id)
    {
      assert nodes[..i + 1][..i] == nodes[..i];
      var node := nodes[i];
      var known := if node.blockType in nodesByType then nodesByType[node.blockType] else [];
      nodesByType := nodesByType[node.blockType := known + [node]];
      nodeById := nodeById[node.id := node];
    }
    assert nodes[..|nodes|] == nodes;
  }

  method BuildContext(nodes: seq<Node>, edges: seq<Edge>) returns (ctx: Context)
    ensures Indexes(ctx, nodes, edges)
    ensures forall n :: n in nodes ==> n.id in ctx.incomingEdges
  {
    var incomingEdges := IndexEdges(nodes, edges);
    var nodesByType, nodeById := IndexNodes(nodes);
    ctx := Context(nodeById, nodesByType, incomingEdges);
    forall id
      ensures Incoming(ctx, id) == EdgesInto(edges, id) && Lookup(ctx, id) == NodeWith(nodes, id)
    {
      assert Listed(incomingEdges, id) == EdgesInto(edges, id);
    }
  }

  // ----- compilation -----

  /** The reference a node compiles to: a constant's value and an indicator's period travel as `length`. */
  function NodeToSignalDescriptor(node: Node): SignalRef {
    var length :=
      if node.blockType == "constant" then Some(node.params.value.Else(0.0))
      else if node.params.length.Some? then node.params.length else node.params.period;
    SignalRef(BlockOf(node.blockType), NO_PARAMS.(length := length))
  }

  function FindHandle(edges: seq<Edge>, handle: string): Option<Edge> {
    if edges == [] then None
    else if edges[0].targetHandle == Some(handle) then Some(edges[0])
    else FindHandle(edges[1..], handle)
  }

  /** The node wired to a handle, by way of the index. */
  function InputOf(ctx: Context, id: string, handle: string): Option<Node> {
    var edge := FindHandle(Incoming(ctx, id), handle);
    if edge == None then None else Lookup(ctx, edge.value.source)
  }

  function Describe(node: Option<Node>): Option<SignalRef> {
    if node == None then None else Some(NodeToSignalDescriptor(node.value))
  }

  const NO_SIGNAL := Signal(OtherKind, None, None, None, None, None, [], None)

  function ExtractSignalInfo(ctx: Context, entry: Node): Signal {
    var source := InputOf(ctx, entry.id, "signal");
    if source == None then NO_SIGNAL
    else
      var a, b := InputOf(ctx, source.value.id, "a"), InputOf(ctx, source.value.id, "b");
      if source.value.blockType == "cross" then
        NO_SIGNAL.(kind := KindOf(source.value.mode.Else("crossover")), fast := Describe(a), slow := Describe(b))
      else if source.value.blockType == "compare" then
        NO_SIGNAL.(kind := Compare, op := Some(OpOf(source.value.op.Else(">"))),
                   left := Describe(a), right := Describe(b))
      else NO_SIGNAL
  }

  // ----- what the graph means -----

  /** The node wired to a handle, by scanning the edge list. */
  function Wired(nodes: seq<Node>, edges: seq<Edge>, id: string, handle: string): Option<Node> {
    var edge := FindHandle(EdgesInto(edges, id), handle);
    if edge == None then None else NodeWith(nodes, edge.value.source)
  }

  /** The parameters a node's own block reads: a constant its value, an indicator all it was given. */
  function OwnParams(node: Node): Params {
    if node.blockType == "constant" then NO_PARAMS.(value := node.params.value) else node.params
  }

  function NodeValue(lib: Library, node: Node, candles: seq<Candle>, i: int): Option<real> {
    ValueAt(lib, QueryOf(BlockOf(node.blockType), OwnParams(node)), candles, i)
  }

  /** The values of the two nodes cross the way the mode names. */
  predicate NodesCross(lib: Library, mode: string, a: Node, b: Node, i: nat, candles: seq<Candle>) {
    && i >= 1
    && var a0, b0 := NodeValue(lib, a, candles, i - 1), NodeValue(lib, b, candles, i - 1);
       var a1, b1 := NodeValue(lib, a, candles, i), NodeValue(lib, b, candles, i);
       && a0.Some? && b0.Some? && a1.Some? && b1.Some?
       && ((mode == "crossover" && a0.value <= b0.value && a1.value > b1.value)
           || (mode == "crossunder" && a0.value >= b0.value && a1.value < b1.value))
  }

  predicate NodesCompare(lib: Library, op: string, a: Node, b: Node, i: nat, candles: seq<Candle>) {
    var x, y := NodeValue(lib, a, candles, i), NodeValue(lib, b, candles, i);
    x.Some? && y.Some? && NamedTest(op, x.value, y.value)
  }

  /** The entry fires at bar `i`, read off nodes and edges directly. */
  predicate GraphFires(lib: Library, nodes: seq<Node>, edges: seq<Edge>, entry: Node, i: nat, candles: seq<Candle>) {
    var source := Wired(nodes, edges, entry.id, "signal");
    && source.Some?
    && var a, b := Wired(nodes, edges, source.value.id, "a"), Wired(nodes, edges, source.value.id, "b");
    && a.Some? && b.Some?
    && (if source.value.blockType == "cross" then
          NodesCross(lib, source.value.mode.Else("crossover"), a.value, b.value, i, candles)
        else
          source.value.blockType == "compare"
          && NodesCompare(lib, source.value.op.Else(">"), a.value, b.value, i, candles))
  }

  predicate WiresTo(e: Edge, id: string, handle: string) {
    e.target == id && e.targetHandle == Some(handle)
  }

  /** Every edge into a node is listed as often as the graph has it, and no other edge is. */
  lemma {:induction false} EdgesIntoAreListed(edges: seq<Edge>, id: string, e: Edge)
    ensures multiset(EdgesInto(edges, id))[e] == if e.target == id then multiset(edges)[e] else 0
  {
    if edges != [] {
      var before := edges[..|edges| - 1];
      EdgesIntoAreListed(before, id, e);
      assert edges == before + [edges[|edges| - 1]];
    }
  }

  lemma {:induction false} NodesOfAreListed(nodes: seq<Node>, blockType: string, n: Node)
    ensures multiset(NodesOf(nodes, blockType))[n] == if n.blockType == blockType then multiset(nodes)[n] else 0
  {
    if nodes != [] {
      var before := nodes[..|nodes| - 1];
      NodesOfAreListed(before, blockType, n);
      assert nodes == before + [nodes[|nodes| - 1]];
    }
  }

  /** The graph's first edge into the handle, if there is one. */
  ghost predicate FirstEdge(edges: seq<Edge>, id: string, handle: string, e: Option<Edge>) {
    if e == None then forall k :: 0 <= k < |edges| ==> !WiresTo(edges[k], id, handle)
    else exists k :: 0 <= k < |edges| && edges[k] == e.value && WiresTo(edges[k], id, handle)
                     && forall j :: 0 <= j < k ==> !WiresTo(edges[j], id, handle)
  }

  /** The graph's last node of the name, if there is one. */
  ghost predicate LastNode(nodes: seq<Node>, id: string, n: Option<Node>) {
    if n == None then forall k :: 0 <= k < |nodes| ==> nodes[k].id != id
    else exists k :: 0 <= k < |nodes| && nodes[k] == n.value && nodes[k].id == id
                     && forall j :: k < j < |nodes| ==> nodes[j].id != id
  }

  lemma {:induction false} FindInAppended(edges: seq<Edge>, e: Edge, handle: string)
    ensures FindHandle(edges + [e], handle)
         == if FindHandle(edges, handle).Some? then FindHandle(edges, handle)
            else if e.targetHandle == Some(handle) then Some(e) else None
  {
    if edges != [] {
      assert (edges + [e])[1..] == edges[1..] + [e];
      FindInAppended(edges[1..], e, handle);
    }
  }

  lemma {:induction false} FirstEdgeFound(edges: seq<Edge>, id: string, handle: string)
    ensures FirstEdge(edges, id, handle, FindHandle(EdgesInto(edges, id), handle))
  {
    if edges != [] {
      var before, last := edges[..|edges| - 1], edges[|edges| - 1];
      FirstEdgeFound(before, id, handle);
      FindInAppended(EdgesInto(before, id), last, handle);
      var found := FindHandle(EdgesInto(before, id), handle);
      if found.Some? {
        var k :| 0 <= k < |before| && before[k] == found.value && WiresTo(before[k], id, handle)
                 && forall j :: 0 <= j < k ==> !WiresTo(before[j], id, handle);
        assert edges[k] == before[k] && forall j :: 0 <= j < k ==> edges[j] == before[j];
        if last.target != id { assert EdgesInto(edges, id) == EdgesInto(before, id); }
      } else {
        assert forall j :: 0 <= j < |before| ==> edges[j] == before[j];
        if last.target != id { assert EdgesInto(edges, id) == EdgesInto(before, id); }
      }
    }
  }

  lemma {:induction false} LastNodeFound(nodes: seq<Node>, id: string)
    ensures LastNode(nodes, id, NodeWith(nodes, id))
  {
    if nodes != [] && nodes[|nodes| - 1].id != id {
      var before := nodes[..|nodes| - 1];
      LastNodeFound(before, id);
      var found := NodeWith(before, id);
      if found.Some? {
        var k :| 0 <= k < |before| && before[k] == found.value && before[k].id == id
                 && forall j :: k < j < |before| ==> before[j].id != id;
        assert nodes[k] == before[k];
        assert forall j :: k < j < |before| ==> nodes[j] == before[j];
      } else {
        assert forall j :: 0 <= j < |before| ==> nodes[j] == before[j];
      }
    }
  }

  /** A handle's node is the last of the name that the first edge into the handle comes from, and else none. */
  lemma WiredExactly(nodes: seq<Node>, edges: seq<Edge>, id: string, handle: string, n: Node)
    ensures Wired(nodes, edges, id, handle) == Some(n)
       <==> exists e :: FirstEdge(edges, id, handle, Some(e)) && LastNode(nodes, e.source, Some(n))
  {
    FirstEdgeFound(edges, id, handle);
    forall e | FirstEdge(edges, id, handle, Some(e))
      ensures Some(e) == FindHandle(EdgesInto(edges, id), handle)
    {
      OneFirstEdge(edges, id, handle, e, FindHandle(EdgesInto(edges, id), handle));
    }
    forall e: Edge
      ensures LastNode(nodes, e.source, Some(n)) <==> NodeWith(nodes, e.source) == Some(n)
    {
      LastNodeFound(nodes, e.source);
      if LastNode(nodes, e.source, Some(n)) { OneLastNode(nodes, e.source, n, NodeWith(nodes, e.source)); }
    }
    hide FirstEdge;
    hide LastNode;
  }

  lemma OneFirstEdge(edges: seq<Edge>, id: string, handle: string, e: Edge, found: Option<Edge>)
    requires FirstEdge(edges, id, handle, Some(e)) && FirstEdge(edges, id, handle, found)
    ensures Some(e) == found
  {
    var k :| 0 <= k < |edges| && edges[k] == e && WiresTo(edges[k], id, handle)
             && forall j :: 0 <= j < k ==> !WiresTo(edges[j], id, handle);
    if found.Some? {
      var m :| 0 <= m < |edges| && edges[m] == found.value && WiresTo(edges[m], id, handle)
               && forall j :: 0 <= j < m ==> !WiresTo(edges[j], id, handle);
      assert k == m;
    }
  }

  lemma OneLastNode(nodes: seq<Node>, id: string, n: Node, found: Option<Node>)
    requires LastNode(nodes, id, Some(n)) && LastNode(nodes, id, found)
    ensures Some(n) == found
  {
    var k :| 0 <= k < |nodes| && nodes[k] == n && nodes[k].id == id
             && forall j :: k < j < |nodes| ==> nodes[j].id != id;
    if found.Some? {
      var m :| 0 <= m < |nodes| && nodes[m] == found.value && nodes[m].id == id
               && forall j :: m < j < |nodes| ==> nodes[j].id != id;
      assert k == m;
    }
  }

  // ----- preservation -----

  /** The compiled reference asks for what the node's own block computes. */
  predicate Determined(node: Node) {
    var block := BlockOf(node.blockType);
    QueryOf(block, NodeToSignalDescriptor(node).params) == QueryOf(block, OwnParams(node))
  }

  ghost predicate AlwaysSameValue(node: Node) {
    forall lib: Library, candles: seq<Candle>, i: nat :: i < |candles| ==> SameValue(lib, node, candles, i)
  }

  ghost predicate SameValue(lib: Library, node: Node, candles: seq<Candle>, i: nat) {
    RefAt(lib, NodeToSignalDescriptor(node), candles, i) == NodeValue(lib, node, candles, i)
  }

  /**
   * Compiling a node keeps its value on all data exactly when the descriptor, which carries one number only,
   * still determines the computation.
   */
  lemma NodePreservedExactly(node: Node)
    ensures Determined(node) <==> AlwaysSameValue(node)
  {
    hide BlockOf;
    hide QueryOf;
    if !Determined(node) {
      var lib, candles, i :=
        SeparateQueries(BlockOf(node.blockType), NodeToSignalDescriptor(node).params, OwnParams(node));
      assert !SameValue(lib, node, candles, i);
    }
  }

  /** The node a handle of the entry's signal source is wired to, if any, is determined by its descriptor. */
  ghost predicate InputsDetermined(nodes: seq<Node>, edges: seq<Edge>, entry: Node) {
    var source := Wired(nodes, edges, entry.id, "signal");
    source.Some? ==>
      var a, b := Wired(nodes, edges, source.value.id, "a"), Wired(nodes, edges, source.value.id, "b");
      && (a.Some? ==> Determined(a.value))
      && (b.Some? ==> Determined(b.value))
  }

  lemma CrossPreserved(lib: Library, mode: string, a: Node, b: Node, i: nat, candles: seq<Candle>)
    requires Determined(a) && Determined(b)
    ensures
      var fast, slow := Some(NodeToSignalDescriptor(a)), Some(NodeToSignalDescriptor(b));
      Fires(lib, NO_SIGNAL.(kind := KindOf(mode), fast := fast, slow := slow), i, candles, 0)
      <==> NodesCross(lib, mode, a, b, i, candles)
  {
    hide BlockOf;
    hide QueryOf;
    KindNames(mode);
    hide KindOf;
  }

  lemma ComparePreserved(lib: Library, op: string, a: Node, b: Node, i: nat, candles: seq<Candle>)
    requires Determined(a) && Determined(b)
    ensures
      var left, right := Some(NodeToSignalDescriptor(a)), Some(NodeToSignalDescriptor(b));
      Fires(lib, NO_SIGNAL.(kind := Compare, op := Some(OpOf(op)), left := left, right := right), i, candles, 0)
      <==> NodesCompare(lib, op, a, b, i, candles)
  {
    hide BlockOf;
    hide QueryOf;
    forall x: real, y: real ensures EvalOp(OpOf(op), x, y) <==> NamedTest(op, x, y) {
      OperatorNames(op, x, y);
    }
    hide OpOf;
    hide NamedTest;
    hide EvalOp;
  }

  lemma HalfWiredNeverFires(lib: Library, s: Signal, i: nat, candles: seq<Candle>)
    requires s.conditions == []
    requires (s.fast == None || s.slow == None) && (s.left == None || s.right == None)
    ensures !Fires(lib, s, i, candles, 0)
  {
  }

  /** Compilation preserves meaning: the evaluator fires the compiled signal exactly when the graph fires. */
  lemma CompilerPreservesMeaning(lib: Library, ctx: Context, nodes: seq<Node>, edges: seq<Edge>, entry: Node,
                                 i: nat, candles: seq<Candle>)
    requires Indexes(ctx, nodes, edges) && InputsDetermined(nodes, edges, entry)
    ensures Fires(lib, ExtractSignalInfo(ctx, entry), i, candles, 0)
      <==> GraphFires(lib, nodes, edges, entry, i, candles)
  {
    hide Determined;
    hide NodesCross;
    hide NodesCompare;
    hide Fires;
    hide KindOf;
    hide OpOf;
    assert forall id, handle :: InputOf(ctx, id, handle) == Wired(nodes, edges, id, handle);
    hide Wired;
    var source, signal := Wired(nodes, edges, entry.id, "signal"), ExtractSignalInfo(ctx, entry);
    if source.Some? {
      var a, b := Wired(nodes, edges, source.value.id, "a"), Wired(nodes, edges, source.value.id, "b");
      if a.Some? && b.Some? {
        CrossPreserved(lib, source.value.mode.Else("crossover"), a.value, b.value, i, candles);
        ComparePreserved(lib, source.value.op.Else(">"), a.value, b.value, i, candles);
      }
    }
    if (signal.fast == None || signal.slow == None) && (signal.left == None || signal.right == None) {
      HalfWiredNeverFires(lib, signal, i, candles);
    }
  }

  /** From raw graph to signal: on all data and at every bar the result fires exactly when the graph does. */
  method CompileEntrySignal(nodes: seq<Node>, edges: seq<Edge>, entry: Node) returns (signal: Signal)
    ensures InputsDetermined(nodes, edges, entry) ==> MeansGraph(signal, nodes, edges, entry)
  {
    hide Indexes;
    hide InputsDetermined;
    hide GraphFires;
    hide ExtractSignalInfo;
    var ctx := BuildContext(nodes, edges);
    signal := ExtractSignalInfo(ctx, entry);
    if InputsDetermined(nodes, edges, entry) {
      forall lib, i: nat, candles
        ensures Fires(lib, signal, i, candles, 0) <==> GraphFires(lib, nodes, edges, entry, i, candles)
      {
        CompilerPreservesMeaning(lib, ctx, nodes, edges, entry, i, candles);
      }
    }
  }

  ghost predicate MeansGraph(signal: Signal, nodes: seq<Node>, edges: seq<Edge>, entry: Node) {
    forall lib: Library, i: nat, candles: seq<Candle> ::
      Fires(lib, signal, i, candles, 0) <==> GraphFires(lib, nodes, edges, entry, i, candles)
  }

  /** Constants, and indicators given nothing but a length, always compile faithfully. */
  lemma LengthOnlyNodes(node: Node)
    requires node.blockType == "constant" || node.params == NO_PARAMS.(length := node.params.length)
    ensures Determined(node)
  {
    hide BlockOf;
    if node.blockType == "constant" {
      ConstantBlockType();
    }
  }

  lemma ConstantBlockType()
    ensures BlockOf("constant") == ConstantBlock
  {
    var t := Lower("constant");
    assert |t| == 8 && t[0] == 'c';
    assert t == "constant";
  }

  /** Given nothing but a period, a block compiles faithfully exactly where that period is read as a length too. */
  lemma PeriodOnlyNodes(node: Node, x: real)
    requires node.blockType != "constant" && node.params == NO_PARAMS.(period := Some(x))
    ensures Determined(node) <==>
      match BlockOf(node.blockType)
      case SmaBlock => x == 14.0
      case EmaBlock => x == 14.0
      case RsiBlock => x == 14.0
      case ShiftBlock => x == 3.0
      case ConstantBlock => x == 0.0
      case ProfilePoc => x == 20.0
      case ProfileVah => x == 20.0
      case ProfileVal => x == 20.0
      case SweepBlock => false
      case OrderBlockBlock => false
      case _ => true
  {
  }

  /** Given both, the length is what is kept, faithfully exactly where the period is not read or says the same. */
  lemma LengthAndPeriodNodes(node: Node, x: real, y: real)
    requires node.blockType != "constant" && node.params == NO_PARAMS.(length := Some(x), period := Some(y))
    ensures Determined(node) <==>
      match BlockOf(node.blockType)
      case AtrBlock => x == y
      case AdxBlock => x == y
      case BollingerLower => x == y
      case BollingerUpper => x == y
      case BollingerMiddle => x == y
      case SweepBlock => y == 50.0
      case OrderBlockBlock => y == 14.0
      case ProfilePoc => y == 20.0
      case ProfileVah => y == 20.0
      case ProfileVal => y == 20.0
      case _ => true
  {
  }
}
