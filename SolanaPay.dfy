/**
 The Solana Pay node: how it resolves its inputs from the edges of the
 canvas, when it builds a transfer request, and how it writes a transaction
 id back into the data bags of the nodes it is connected to.
 */
module SolanaPay {
  import opened Flow

  /** `updateNodeData` writes under the key "data" (the shorthand property `data`). */
  const DataKey := "data"
  /** The key an unbound handle is looked up under: `String(undefined)`. */
  const UnboundKey := "undefined"
  const DefaultLabel := "SOL Trek"
  const DefaultMessage := "Solana Pay QR generated using SOL Trek"

  // ---------------------------------------------------------------------
  // Write-back of node data
  // ---------------------------------------------------------------------

  /** A node whose data bag has `v` under the key "data" and all its other entries kept. */
  function WithData(n: Node, v: string): Node
  {
    n.(data := n.data[DataKey := v])
  }

  /** The node list after every node whose id is in `targets` has had `v` written under "data". */
  function WriteData(nds: seq<Node>, targets: set<string>, v: string): (r: seq<Node>)
    ensures |r| == |nds|
    ensures forall i :: 0 <= i < |nds| && nds[i].id !in targets ==> r[i] == nds[i]
    ensures forall i :: 0 <= i < |nds| && nds[i].id in targets ==>
              && r[i].id == nds[i].id
              && r[i].selected == nds[i].selected
              && r[i].data.Keys == nds[i].data.Keys + {DataKey}
              && r[i].data[DataKey] == v
              && forall k :: k in nds[i].data && k != DataKey ==> r[i].data[k] == nds[i].data[k]
  {
    seq(|nds|, i requires 0 <= i < |nds| => if nds[i].id in targets then WithData(nds[i], v) else nds[i])
  }

  /** Writing twice, first for `s` and then for `t`, is writing once for both. */
  lemma WriteDataTwice(nds: seq<Node>, s: set<string>, t: set<string>, v: string)
    ensures WriteData(WriteData(nds, s, v), t, v) == WriteData(nds, s + t, v)
  {
    var a := WriteData(WriteData(nds, s, v), t, v);
    var b := WriteData(nds, s + t, v);
    forall i | 0 <= i < |nds| ensures a[i] == b[i] {
      if nds[i].id in s && nds[i].id in t {
        assert WithData(WithData(nds[i], v), v) == WithData(nds[i], v);
      }
    }
  }

  /** The node list after `updateNodeData(t, v)` has run for each `t` of `targets` in order. */
  function Propagate(nds: seq<Node>, targets: seq<string>, v: string): seq<Node>
  {
    if targets == [] then nds
    else WriteData(Propagate(nds, targets[..|targets| - 1], v), {targets[|targets| - 1]}, v)
  }

  /** Propagating over a list of targets writes `v` once into every node whose id is listed, whatever the order or repetitions. */
  lemma {:induction false} PropagateWritesEveryTarget(nds: seq<Node>, targets: seq<string>, v: string)
    ensures Propagate(nds, targets, v) == WriteData(nds, (set t | t in targets), v)
  {
    if targets == [] {
      assert WriteData(nds, {}, v) == nds;
    } else {
      var init := targets[..|targets| - 1];
      var last := targets[|targets| - 1];
      PropagateWritesEveryTarget(nds, init, v);
      WriteDataTwice(nds, (set t | t in init), {last}, v);
      assert (set t | t in targets) == (set t | t in init) + {last} by {
        assert targets == init + [last];
      }
    }
  }

  /** After a new transaction id has been propagated, every node whose id was recorded holds it under "data",
      and every other node is as it was. */
  lemma TxidReachesEveryTarget(nds: seq<Node>, targets: seq<string>, txid: string)
    ensures |Propagate(nds, targets, txid)| == |nds|
    ensures forall i :: 0 <= i < |nds| && nds[i].id in targets ==>
              DataKey in Propagate(nds, targets, txid)[i].data &&
              Propagate(nds, targets, txid)[i].data[DataKey] == txid
    ensures forall i :: 0 <= i < |nds| && nds[i].id !in targets ==>
              Propagate(nds, targets, txid)[i] == nds[i]
  {
    PropagateWritesEveryTarget(nds, targets, txid);
  }

  // ---------------------------------------------------------------------
  // The handle-to-source binding map
  // ---------------------------------------------------------------------

  /** `edge_id` after the fold over `es`: each edge sets its handle key to its source, later edges overwriting earlier ones. */
  function Bindings(es: seq<Edge>): map<string, string>
  {
    if es == [] then map[]
    else Bindings(es[..|es| - 1])[HandleKey(es[|es| - 1].targetHandle) := es[|es| - 1].source]
  }

  /** A handle is bound exactly when some edge carries it, and then to the source of the last such edge,
      whatever that edge's target is. */
  lemma {:induction false} BindingIsLastEdge(es: seq<Edge>, h: string)
    ensures h !in Bindings(es) <==> forall i :: 0 <= i < |es| ==> HandleKey(es[i].targetHandle) != h
    ensures forall i :: 0 <= i < |es| && HandleKey(es[i].targetHandle) == h &&
                        (forall j :: i < j < |es| ==> HandleKey(es[j].targetHandle) != h) ==>
              h in Bindings(es) && Bindings(es)[h] == es[i].source
  {
    if es != [] {
      var init := es[..|es| - 1];
      BindingIsLastEdge(init, h);
      forall i | 0 <= i < |init| ensures init[i] == es[i] { }
    }
  }

  /** The binding map depends on each edge's source and handle only: edges into any node contribute. */
  lemma {:induction false} BindingsIgnoreTargets(es: seq<Edge>, es': seq<Edge>)
    requires |es| == |es'|
    requires forall i :: 0 <= i < |es| ==> es[i].source == es'[i].source && es[i].targetHandle == es'[i].targetHandle
    ensures Bindings(es) == Bindings(es')
  {
    if es != [] {
      BindingsIgnoreTargets(es[..|es| - 1], es'[..|es'| - 1]);
    }
  }

  /** Taking one edge out of the list leaves the binding of every other handle as it was. */
  lemma {:induction false} RemoveEdgeKeepsOtherBindings(es: seq<Edge>, k: nat, h: string)
    requires k < |es|
    requires h != HandleKey(es[k].targetHandle)
    ensures h in Bindings(es[..k] + es[k + 1..]) <==> h in Bindings(es)
    ensures h in Bindings(es) ==> Bindings(es[..k] + es[k + 1..])[h] == Bindings(es)[h]
  {
    var init := es[..|es| - 1];
    if k == |es| - 1 {
      assert es[..k] + es[k + 1..] == init;
    } else {
      RemoveEdgeKeepsOtherBindings(init, k, h);
      var rest := es[..k] + es[k + 1..];
      assert rest[..|rest| - 1] == init[..k] + init[k + 1..];
      assert rest[|rest| - 1] == es[|es| - 1];
    }
  }

  /** The loop of the effect that builds `edge_id`, one edge at a time. */
  method BuildBindings(es: seq<Edge>) returns (edgeId: map<string, string>)
    ensures edgeId == Bindings(es)
  {
    edgeId := map[];
    var i := 0;
    while i < |es|
      invariant 0 <= i <= |es|
      invariant edgeId == Bindings(es[..i])
    {
      assert es[..i + 1][..i] == es[..i];
      edgeId := edgeId[HandleKey(es[i].targetHandle) := es[i].source];
      i := i + 1;
    }
    assert es[..|es|] == es;
  }

  // ---------------------------------------------------------------------
  // Input lookup and the transfer request
  // ---------------------------------------------------------------------

  /** `String(edgeId[handle])`: the bound source id, or "undefined" when the handle is unbound. */
  function KeyFor(edgeId: map<string, string>, handle: string): string
  {
    if handle in edgeId then edgeId[handle] else UnboundKey
  }

  /** `data[String(edgeId[handle])]` over a binding map. */
  function Get(data: map<string, string>, edgeId: map<string, string>, handle: string): Option<string>
  {
    var key := KeyFor(edgeId, handle);
    if key in data then Some(data[key]) else None
  }

  /** The data-bag key an input handle is read under, given the edges of the canvas. */
  function InputKey(es: seq<Edge>, handle: string): string
  {
    KeyFor(Bindings(es), handle)
  }

  /** The value `currentNode.data[String(edge_id[handle])]`, with `edge_id` built from the edges of the canvas. */
  function Lookup(data: map<string, string>, es: seq<Edge>, handle: string): Option<string>
  {
    Get(data, Bindings(es), handle)
  }

  /** JavaScript truthiness of a looked-up string: present and non-empty. */
  predicate Truthy(v: Option<string>)
  {
    v.Some? && v.value != ""
  }

  /** `v || d` */
  function OrDefault(v: Option<string>, d: string): string
  {
    if Truthy(v) then v.value else d
  }

  /** The fields of a Solana Pay transfer request; `reference` is the node's generated reference key, taken as given. */
  datatype TransferRequest = TransferRequest(
    recipient: string, splToken: string, amount: string,
    reference: string, labelText: string, messageText: string)

  /** What the request effect does: it returns early without a node id, throws a TypeError when the node
      is not on the canvas (`Object.values(undefined)`), does nothing on an empty data bag or a missing
      required input, and otherwise builds a request. */
  datatype Outcome =
    | NoNodeId
    | NodeMissing
    | EmptyBag
    | MissingInput
    | Ready(request: TransferRequest)

  /** The request effect as a function of the node id, the canvas and the reference key. */
  function EvaluateRequest(nodeId: Option<string>, nds: seq<Node>, es: seq<Edge>, reference: string): Outcome
  {
    if nodeId.None? || nodeId.value == "" then NoNodeId
    else
      match FindNode(nds, nodeId.value)
      case None => NodeMissing
      case Some(n) =>
        if |n.data| == 0 then EmptyBag
        else
          var recipient := Lookup(n.data, es, "recipient");
          var splToken := Lookup(n.data, es, "spl_token");
          var amount := Lookup(n.data, es, "amount");
          var labelText := OrDefault(Lookup(n.data, es, "label"), DefaultLabel);
          var messageText := OrDefault(Lookup(n.data, es, "message"), DefaultMessage);
          if !Truthy(recipient) || !Truthy(splToken) || !Truthy(amount) then MissingInput
          else Ready(TransferRequest(recipient.value, splToken.value, amount.value, reference, labelText, messageText))
  }

  /** The node's data bag holds a present, non-empty value for an input, read from where the binding points. */
  predicate HasInput(n: Node, es: seq<Edge>, handle: string)
  {
    Truthy(Lookup(n.data, es, handle))
  }

  /** A request is built exactly when the node has a non-empty id, is on the canvas, its data bag is
      non-empty and the recipient, SPL token and amount inputs are all present and non-empty. */
  lemma RequestGate(nodeId: Option<string>, nds: seq<Node>, es: seq<Edge>, reference: string)
    ensures EvaluateRequest(nodeId, nds, es, reference).Ready? <==>
              && nodeId.Some? && nodeId.value != ""
              && FindNode(nds, nodeId.value).Some?
              && var n := FindNode(nds, nodeId.value).value;
                 && |n.data| > 0
                 && HasInput(n, es, "recipient")
                 && HasInput(n, es, "spl_token")
                 && HasInput(n, es, "amount")
  {
  }

  /** A built request carries exactly the data-bag values stored under the ids bound to the recipient,
      spl_token and amount handles, the given reference, and the label and message defaults when those
      inputs are missing or empty. */
  lemma RequestFields(nodeId: Option<string>, nds: seq<Node>, es: seq<Edge>, reference: string)
    requires EvaluateRequest(nodeId, nds, es, reference).Ready?
    ensures nodeId.Some? && FindNode(nds, nodeId.value).Some?
    ensures var n := FindNode(nds, nodeId.value).value;
            var r := EvaluateRequest(nodeId, nds, es, reference).request;
            && r.recipient == n.data[InputKey(es, "recipient")]
            && r.splToken == n.data[InputKey(es, "spl_token")]
            && r.amount == n.data[InputKey(es, "amount")]
            && r.reference == reference
            && r.labelText == (if HasInput(n, es, "label") then n.data[InputKey(es, "label")] else DefaultLabel)
            && r.messageText == (if HasInput(n, es, "message") then n.data[InputKey(es, "message")] else DefaultMessage)
  {
  }

  /** An input handle that no edge carries is read under the key "undefined": when none of the three
      required handles is bound, a request can still be built, from the one entry under that key. */
  lemma UnboundInputsShareUndefinedKey(nodeId: Option<string>, nds: seq<Node>, es: seq<Edge>, reference: string)
    requires forall i :: 0 <= i < |es| ==> HandleKey(es[i].targetHandle) !in {"recipient", "spl_token", "amount"}
    requires EvaluateRequest(nodeId, nds, es, reference).Ready?
    ensures var n := FindNode(nds, nodeId.value).value;
            var r := EvaluateRequest(nodeId, nds, es, reference).request;
            UnboundKey in n.data && r.recipient == r.splToken == r.amount == n.data[UnboundKey]
  {
    BindingIsLastEdge(es, "recipient");
    BindingIsLastEdge(es, "spl_token");
    BindingIsLastEdge(es, "amount");
  }

  // ---------------------------------------------------------------------
  // The component's state and handlers
  // ---------------------------------------------------------------------

  /** One Solana Pay node on the canvas: its own id, its reference key, the transaction id it holds
      and the list of connection targets it has recorded (`currentPDA`). */
  class SolanaPayNode {
    const store: FlowStore
    const nodeId: Option<string>
    const reference: string
    var txid: string
    var currentPDA: seq<string>

    constructor (store: FlowStore, nodeId: Option<string>, reference: string)
      ensures this.store == store && this.nodeId == nodeId && this.reference == reference
      ensures txid == "" && currentPDA == []
    {
      this.store := store;
      this.nodeId := nodeId;
      this.reference := reference;
      txid := "";
      currentPDA := [];
    }

    /** `updateNodeData`: map over the node list, writing `v` under "data" in each node whose id is `id`. */
    method UpdateNodeData(id: string, v: string)
      modifies store
      ensures store.nodes == WriteData(old(store.nodes), {id}, v)
      ensures store.edges == old(store.edges)
    {
      var nds := store.nodes;
      var out: seq<Node> := [];
      var i := 0;
      while i < |nds|
        invariant 0 <= i <= |nds|
        invariant |out| == i
        invariant forall k :: 0 <= k < i ==> out[k] == if nds[k].id == id then WithData(nds[k], v) else nds[k]
      {
        var node := nds[i];
        if node.id == id {
          node := node.(data := node.data[DataKey := v]);
        }
        out := out + [node];
        i := i + 1;
      }
      store.nodes := out;
    }

    /** `updatePDA`: for a connection with a target, write the current transaction id into the target
        and record the target at the end of `currentPDA`; without a target, do nothing. */
    method UpdatePDA(target: Option<string>)
      modifies this, store
      ensures txid == old(txid)
      ensures target.None? || target.value == "" ==>
                currentPDA == old(currentPDA) && store.nodes == old(store.nodes)
      ensures target.Some? && target.value != "" ==>
                && currentPDA == old(currentPDA) + [target.value]
                && store.nodes == WriteData(old(store.nodes), {target.value}, txid)
      ensures store.edges == old(store.edges)
    {
      if target.None? || target.value == "" {
        return;
      }
      UpdateNodeData(target.value, txid);
      currentPDA := currentPDA + [target.value];
    }

    /** `setTxid` followed by the effect that depends on `txid`: when the value changes, write it into
        every recorded target, in order; setting the same value again re-runs nothing. */
    method SetTxid(newTxid: string)
      modifies this, store
      ensures txid == newTxid && currentPDA == old(currentPDA)
      ensures newTxid == old(txid) ==> store.nodes == old(store.nodes)
      ensures newTxid != old(txid) ==> store.nodes == Propagate(old(store.nodes), currentPDA, newTxid)
      ensures store.edges == old(store.edges)
    {
      if newTxid == txid {
        return;
      }
      txid := newTxid;
      var i := 0;
      while i < |currentPDA|
        invariant 0 <= i <= |currentPDA|
        invariant txid == newTxid && currentPDA == old(currentPDA)
        invariant store.nodes == Propagate(old(store.nodes), currentPDA[..i], newTxid)
        invariant store.edges == old(store.edges)
      {
        assert currentPDA[..i + 1][..i] == currentPDA[..i];
        UpdateNodeData(currentPDA[i], txid);
        i := i + 1;
      }
      assert currentPDA[..|currentPDA|] == currentPDA;
    }

    /** The request effect: build the binding map from all edges, read the inputs from this node's data
        bag, and build the request when the required ones are there. */
    method ComputeRequest() returns (o: Outcome)
      ensures o == EvaluateRequest(nodeId, store.nodes, store.edges, reference)
    {
      if nodeId.None? || nodeId.value == "" {
        return NoNodeId;
      }
      var current := FindNode(store.nodes, nodeId.value);
      var edgeId := BuildBindings(store.edges);
      if current.None? {
        return NodeMissing;
      }
      var data := current.value.data;
      if |data| == 0 {
        return EmptyBag;
      }
      var recipient := Get(data, edgeId, "recipient");
      var splToken := Get(data, edgeId, "spl_token");
      var amount := Get(data, edgeId, "amount");
      var labelText := OrDefault(Get(data, edgeId, "label"), DefaultLabel);
      var messageText := OrDefault(Get(data, edgeId, "message"), DefaultMessage);
      if !Truthy(recipient) || !Truthy(splToken) || !Truthy(amount) {
        return MissingInput;
      }
      o := Ready(TransferRequest(recipient.value, splToken.value, amount.value, reference, labelText, messageText));
    }
  }
}
