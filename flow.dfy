/** The workflow graph shared by the builder canvas, the campaign flow
    definitions and the member journey: nodes with a type, a canvas
    position and their data, and edges between node ids. */
module Flow {
  import opened Wrappers
  import opened JsValues

  datatype Position = Position(x: real, y: real)

  /** A node's `data`: its `label` (here `title`, as `label` is a Dafny
      keyword) and its `config` (`Undef` when absent). */
  datatype NodeData = NodeData(title: string, config: Value)

  datatype Node = Node(id: string, nodeType: string, position: Position, data: NodeData)

  /** An edge; `sourceHandle` names the source node's handle it leaves
      from and `caption` is its optional `label`. */
  datatype Edge = Edge(id: string, source: string, target: string, sourceHandle: Option<string>, caption: Option<string>)

  /** An edge with neither a handle nor a label. */
  function Plain(id: string, source: string, target: string): Edge
  {
    Edge(id, source, target, None, None)
  }

  /** The node ids, in order. */
  function NodeIds(nodes: seq<Node>): (ids: seq<string>)
    ensures |ids| == |nodes|
    ensures forall i :: 0 <= i < |nodes| ==> ids[i] == nodes[i].id
  {
    seq(|nodes|, i requires 0 <= i < |nodes| => nodes[i].id)
  }

  predicate DistinctIds(ids: seq<string>)
  {
    forall i, j :: 0 <= i < j < |ids| ==> ids[i] != ids[j]
  }

  /** Every edge starts and ends at a node of the graph. */
  predicate Connected(nodes: seq<Node>, edges: seq<Edge>)
  {
    forall i :: 0 <= i < |edges| ==> edges[i].source in NodeIds(nodes) && edges[i].target in NodeIds(nodes)
  }

  /** `nodes.find(n => n.id === id)`: the first node with that id. */
  function FindNode(nodes: seq<Node>, id: string): (r: Option<Node>)
    ensures r.None? <==> id !in NodeIds(nodes)
    ensures r.Some? ==> exists i :: 0 <= i < |nodes| && nodes[i] == r.value && id !in NodeIds(nodes[..i])
    ensures r.Some? ==> r.value.id == id
  {
    if nodes == [] then None
    else if nodes[0].id == id then
      assert NodeIds(nodes[..0]) == [];
      Some(nodes[0])
    else
      var r := FindNode(nodes[1..], id);
      assert NodeIds(nodes)[1..] == NodeIds(nodes[1..]);
      if r.Some? then
        var i :| 0 <= i < |nodes[1..]| && nodes[1..][i] == r.value && id !in NodeIds(nodes[1..][..i]);
        assert nodes[i + 1] == r.value;
        assert NodeIds(nodes[..i + 1]) == [nodes[0].id] + NodeIds(nodes[1..][..i]);
        r
      else r
  }
}
