/**
 The vocabulary shared by the Solana Pay node and the Playground canvas:
 nodes with their data bags, edges with their target handles, and the
 store that holds the canvas's node and edge lists (the state behind
 `useNodesState`/`useEdgesState` that `setNodes` and `getEdges` reach).
 */
module Flow {

  datatype Option<T> = None | Some(value: T)

  /** A canvas node: its id, its data bag (input key to value) and its selection flag. */
  datatype Node = Node(id: string, data: map<string, string>, selected: bool)

  /** The target handle of an edge as the canvas library hands it over: a port name, `null`, or absent. */
  datatype TargetHandle = Port(name: string) | NullHandle | NoHandle

  /** A directed edge from the output of `source` into the handle `targetHandle` of `target`. */
  datatype Edge = Edge(source: string, target: string, targetHandle: TargetHandle)

  /** The property key JavaScript makes of a handle used as a computed key:
      `String(null)` is "null" and `String(undefined)` is "undefined". */
  function HandleKey(h: TargetHandle): string
  {
    match h
    case Port(name) => name
    case NullHandle => "null"
    case NoHandle => "undefined"
  }

  /** The ids of the nodes of a list. */
  function Ids(nds: seq<Node>): set<string>
  {
    set n | n in nds :: n.id
  }

  /** The first node of `nds` whose id is `id`, as `Array.prototype.find` returns it. */
  function FindNode(nds: seq<Node>, id: string): (r: Option<Node>)
    ensures r.None? <==> id !in Ids(nds)
    ensures r.Some? ==> exists i :: 0 <= i < |nds| && nds[i] == r.value && nds[i].id == id &&
                                    forall j :: 0 <= j < i ==> nds[j].id != id
  {
    if nds == [] then None
    else if nds[0].id == id then Some(nds[0])
    else
      var r := FindNode(nds[1..], id);
      assert Ids(nds) == {nds[0].id} + Ids(nds[1..]) by {
        assert forall n :: n in nds <==> n == nds[0] || n in nds[1..];
      }
      if r.Some? then
        var i' :| 0 <= i' < |nds[1..]| && nds[1..][i'] == r.value && nds[1..][i'].id == id &&
                   forall j :: 0 <= j < i' ==> nds[1..][j].id != id;
        assert nds[i' + 1] == r.value;
        r
      else r
  }

  /** The canvas's node and edge state. */
  class FlowStore {
    var nodes: seq<Node>
    var edges: seq<Edge>

    constructor (nodes0: seq<Node>, edges0: seq<Edge>)
      ensures nodes == nodes0 && edges == edges0
    {
      nodes := nodes0;
      edges := edges0;
    }
  }
}
