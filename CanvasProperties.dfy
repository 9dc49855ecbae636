/**
 How the Playground's pruning interacts with what the Solana Pay node
 writes into and reads from data bags.
 */
module CanvasProperties {
  import opened Flow
  import opened SolanaPay
  import opened Playground

  /** The write-back entry lives under the key "data", which is not a node id on an ordinary canvas:
      the next pruning removes it from every node again. */
  lemma PruneErasesWriteBack(nds: seq<Node>, targets: set<string>, txid: string, snapshot: seq<Node>)
    requires DataKey !in Ids(snapshot)
    ensures forall i :: 0 <= i < |nds| ==> DataKey !in PruneAll(WriteData(nds, targets, txid), Ids(snapshot))[i].data
  {
  }

  /** On a pruned canvas, a request is only built from inputs stored under live node ids; when no node
      has the id "undefined", that means all three required handles are bound by some edge. */
  lemma PrunedRequestUsesLiveSources(nodeId: Option<string>, nds: seq<Node>, es: seq<Edge>, reference: string, snapshot: seq<Node>)
    requires EvaluateRequest(nodeId, PruneAll(nds, Ids(snapshot)), es, reference).Ready?
    ensures InputKey(es, "recipient") in Ids(snapshot)
    ensures InputKey(es, "spl_token") in Ids(snapshot)
    ensures InputKey(es, "amount") in Ids(snapshot)
    ensures UnboundKey !in Ids(snapshot) ==>
              "recipient" in Bindings(es) && "spl_token" in Bindings(es) && "amount" in Bindings(es)
  {
  }
}
