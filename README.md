# Solana Pay node and Playground integrity effects

A Dafny model of two pieces of graph maintenance in the SOL Trek canvas. The canvas is a node list and an edge list.
Each node has an id, a data bag (input key to value) and a selection flag. Each edge has a source node, a target node and a target handle.

- **The Solana Pay node** (`src/nodes/Web3/SolanaPay.tsx`) resolves its inputs and builds a transfer request from them.
  - It folds over *every* edge of the canvas to build a handle-to-source map (`edge_id`). A later edge overwrites an earlier one for the same handle. Edges into other nodes also contribute.
  - It reads each input from its own data bag under the bound source id. An unbound handle is read under the key `"undefined"`.
  - Label and message fall back to defaults. It builds a request only when its data bag is non-empty and recipient, SPL token and amount are all present and non-empty.
  - It defines handlers that would write a transaction id back into the nodes it has been connected to (`updateNodeData`, `updatePDA`, the `txid` effect). Neither `updatePDA` nor `setTxid` is called anywhere in this component: none of its five handles receives `updatePDA`. So `currentPDA` stays empty and the `txid` effect writes nothing. `UpdatePDA` and `SetTxid` model these handlers as they would behave if they were wired up.
- **The Playground** (`src/layouts/Playground.tsx`) has two effects. One prunes every data-bag key that is not the id of a node. The other selects every node when the Ctrl-A press text, up to its first `-`, is `"true"`.

Files:

- `Flow.dfy`: the shared datatypes and the `FlowStore` class.
  - `Node`, `Edge`, `TargetHandle` and `Option`.
  - `FlowStore` holds the canvas's `nodes` and `edges`, which `setNodes` and `getEdges` reach.
  - `FindNode` is the node lookup.
- `SolanaPay.dfy`: the node itself.
  - Specification functions: `WriteData`, `Propagate`, `Bindings`, `InputKey`, `EvaluateRequest`.
  - The lemmas about them.
  - The class `SolanaPayNode`, which holds the component state `txid` and `currentPDA`. Its methods are `UpdateNodeData`, `UpdatePDA`, `SetTxid` and `ComputeRequest`.
- `Playground.dfy`:
  - pruning: `PrunedBag`, `PruneAll`, the key loop `PruneBag` and the effect `PruneOrphanData`;
  - select-all: `FirstSegment`, `SelectAll`, `AfterCtrlA` and the effect `OnCtrlAPress`;
  - the lemmas about both.
- `CanvasProperties.dfy`: how pruning interacts with the Solana Pay node's reads and writes.

How the node reads its inputs:

- The binding map is built from every edge on the canvas, whatever its target.
- An unbound required input is read under the key `"undefined"` (`UnboundInputsShareUndefinedKey`).

Modelling choices:

- A target handle is a port name, `null` or absent. Used as a computed property key, it becomes the name, `"null"` or `"undefined"` (`HandleKey`).
- A falsy `updatePDA` target (`null` or `""`) is `None` or `Some("")`.
- Node ids are taken to be unique, as the canvas library keeps them. Under that assumption any lookup by id agrees with `FindNode`, which gives the first node with the id. When the node is not on the canvas, `Object.values(undefined)` throws a TypeError. That outcome is `NodeMissing`.
- `setTxid` is never called in this component. `SetTxid` models such a call together with the effect that depends on `txid`. Setting the same value does not re-run the effect.
- The pruning effect takes the id set from the node snapshot it closed over (`snapshot`). It rewrites the current node list.

## Model

| member | source | states |
|---|---|---|
| Flow.FindNode | src/nodes/Web3/SolanaPay.tsx:57 | the node lookup finds nothing exactly when no node has the id; otherwise it gives the first node with that id, which is the only one when ids are unique |
| SolanaPay.WriteData | src/nodes/Web3/SolanaPay.tsx:30-42 | writing a value into the nodes with given ids keeps length and order. Other nodes are unchanged. A matching node keeps its id, its flag and every other data entry, and holds the value under "data" |
| SolanaPay.SolanaPayNode.UpdateNodeData | src/nodes/Web3/SolanaPay.tsx:30-42 | the map over the node list leaves exactly WriteData of the old list for the one id; edges are untouched |
| SolanaPay.WriteDataTwice | src/nodes/Web3/SolanaPay.tsx:34-37 | two successive write-backs of the same value equal one write-back to the union of their targets |
| SolanaPay.PropagateWritesEveryTarget | src/nodes/Web3/SolanaPay.tsx:48-53 | running updateNodeData for each recorded target in order equals one write to the set of targets, whatever their order and repetitions |
| SolanaPay.TxidReachesEveryTarget | src/nodes/Web3/SolanaPay.tsx:48-53 | after the txid effect every node whose id is in currentPDA holds the new txid under "data". Every other node is unchanged |
| SolanaPay.SolanaPayNode.SetTxid | src/nodes/Web3/SolanaPay.tsx:48-53 | a changed txid is propagated to the recorded targets, in order. An unchanged txid changes nothing. currentPDA and the edges are kept |
| SolanaPay.SolanaPayNode.UpdatePDA | src/nodes/Web3/SolanaPay.tsx:43-47 | without a target, neither nodes nor currentPDA change. With a target, the current txid is written into the target and the target is appended to the end of currentPDA |
| SolanaPay.SolanaPayNode.constructor | src/nodes/Web3/SolanaPay.tsx:18-25 | a new node holds txid "" and an empty currentPDA |
| SolanaPay.BuildBindings | src/nodes/Web3/SolanaPay.tsx:58-65 | the loop over the edges produces exactly the binding map Bindings of the whole edge list |
| SolanaPay.BindingIsLastEdge | src/nodes/Web3/SolanaPay.tsx:58-65 | a handle is bound iff some edge carries it, and then to the source of the last such edge in list order |
| SolanaPay.BindingsIgnoreTargets | src/nodes/Web3/SolanaPay.tsx:59-65 | the binding map does not depend on edge targets: edges into any node contribute |
| SolanaPay.RemoveEdgeKeepsOtherBindings | src/nodes/Web3/SolanaPay.tsx:58-65 | removing one edge leaves the binding of every other handle unchanged |
| SolanaPay.RequestGate | src/nodes/Web3/SolanaPay.tsx:56-76 | the outcome is Ready (the inputs pass the gate) iff the node id is non-empty, the node is found, its data bag is non-empty, and recipient, spl_token and amount are present and non-empty where their bindings point |
| SolanaPay.RequestFields | src/nodes/Web3/SolanaPay.tsx:69-84 | a built request carries the data-bag values under the ids bound to recipient, spl_token and amount, and the given reference. Label and message are the bound values when present and non-empty, else "SOL Trek" and "Solana Pay QR generated using SOL Trek" |
| SolanaPay.UnboundInputsShareUndefinedKey | src/nodes/Web3/SolanaPay.tsx:69-71 | when no edge carries the three required handles, a request can still be built. Its recipient, SPL token and amount are all the entry under "undefined" |
| SolanaPay.SolanaPayNode.ComputeRequest | src/nodes/Web3/SolanaPay.tsx:55-84 | the effect, with its edge loop, gives exactly the outcome of EvaluateRequest on the current canvas |
| Playground.PruneBag | src/layouts/Playground.tsx:35-40 | the loop over a data bag's keys keeps exactly the keys that are node ids, with their values |
| Playground.PruneOrphanData | src/layouts/Playground.tsx:32-45 | the effect leaves PruneAll of the current list against the ids of the snapshot; edges are untouched |
| Playground.PruneLeavesOnlyIds | src/layouts/Playground.tsx:35-40 | after pruning every data-bag key of every node is a node id |
| Playground.PruneKeepsIdEntries | src/layouts/Playground.tsx:37-39 | pruning keeps every entry whose key is a node id, with its value |
| Playground.PruneKeepsNodes | src/layouts/Playground.tsx:33-43 | pruning keeps the number and order of nodes, their ids and their selection flags |
| Playground.PruneIdempotent | src/layouts/Playground.tsx:33-43 | pruning twice with the same id set equals pruning once |
| Playground.FirstSegment | src/layouts/Playground.tsx:50 | split("-")[0] is the prefix of the text that has no "-" and is followed by "-" or the end of the text |
| Playground.SegmentIsTrue | src/layouts/Playground.tsx:50 | the segment before the first "-" is "true" iff the press text is "true" or starts with "true-" |
| Playground.OnCtrlAPress | src/layouts/Playground.tsx:49-54 | the effect leaves AfterCtrlA of the old node list and does not touch the edges |
| Playground.CtrlASelectsEveryNode | src/layouts/Playground.tsx:50-51 | when the segment is "true" every node is selected afterwards. Node count, order, ids and data bags are kept |
| Playground.CtrlAOtherwiseUnchanged | src/layouts/Playground.tsx:50 | any other press text leaves the node list unchanged |
| CanvasProperties.PruneErasesWriteBack | src/layouts/Playground.tsx:35-40 | when no node has the id "data", the next pruning removes the entry the Solana Pay write-back put under "data" |
| CanvasProperties.PrunedRequestUsesLiveSources | src/nodes/Web3/SolanaPay.tsx:69-76 | on a pruned canvas a request reads recipient, SPL token and amount only under live node ids. When no node has the id "undefined", all three handles are bound |

## Left out

- Building the payment URL and the QR code, and inserting them into the page: `encodeURL`, `createQR`, `PublicKey`, `BigNumber` and the `amount > 0` check, which only gates that output. `new PublicKey` throws on a string that is not a valid key, and the effect then aborts. The model does not capture this: its outcome `Ready` means the inputs passed the required-field gate, not that a request object was built.
- The reference key: it is produced by `Keypair.generate` (randomness). It is a given string.
- React scheduling and batching. Effects are modelled as running when their dependency changes, with `setNodes` updaters applied in call order.
- The stale closure over `currentPDA` in `updatePDA`: two connections handled within one render would lose one append. Each call is modelled as seeing the latest state.
- Aliasing of node objects. `updateNodeData` and the pruning effect replace `node.data` on the very objects the previous list also holds. The model builds new node values.
- Inherited properties of plain JavaScript objects: a data-bag lookup under a key such as `"toString"` would find a function. Data bags are modelled as maps that hold only their own entries.
- A `txid` of `undefined` written by `txid as string`: the model's `txid` is always a string.
- ReactFlow's `addEdge`, `onNodesChange` and `onEdgesChange`, including whatever edge removal they perform on node deletion. `useKeyPress` and `useCtrlA` (its text format): the press text is a parameter.
- Node positions, types and rendering. `src/layout/BaseNode.tsx` only picks a colour from `selected`.
- `src/sdks/hxroDexterity.ts`: every function wraps an external trading SDK and network calls.
