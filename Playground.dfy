/**
 The Playground canvas's two integrity effects: pruning data-bag entries
 whose key is not the id of a node, and selecting every node on Ctrl-A.
 */
module Playground {
  import opened Flow

  // ---------------------------------------------------------------------
  // Orphan-data pruning
  // ---------------------------------------------------------------------

  /** A data bag with every entry whose key is not in `ids` removed. */
  function PrunedBag(data: map<string, string>, ids: set<string>): map<string, string>
  {
    map k | k in data && k in ids :: data[k]
  }

  /** The node list with every node's data bag pruned against `ids`. */
  function PruneAll(nds: seq<Node>, ids: set<string>): seq<Node>
  {
    seq(|nds|, i requires 0 <= i < |nds| => nds[i].(data := PrunedBag(nds[i].data, ids)))
  }

  /** The inner loop of the pruning effect: walk the keys of a data bag and drop each one that is not a node id. */
  method PruneBag(data: map<string, string>, ids: set<string>) returns (r: map<string, string>)
    ensures r.Keys == data.Keys * ids
    ensures forall k :: k in r ==> r[k] == data[k]
  {
    r := data;
    var keys := data.Keys;
    while keys != {}
      invariant keys <= data.Keys
      invariant r.Keys == (data.Keys * ids) + keys
      invariant forall k :: k in r ==> r[k] == data[k]
      decreases keys
    {
      var key :| key in keys;
      if key !in ids {
        r := r - {key};
      }
      keys := keys - {key};
    }
  }

  /** The pruning effect: over the current node list, prune every data bag against the ids of the
      node snapshot the effect closed over. */
  method PruneOrphanData(store: FlowStore, snapshot: seq<Node>)
    modifies store
    ensures store.nodes == PruneAll(old(store.nodes), Ids(snapshot))
    ensures store.edges == old(store.edges)
  {
    var ids := Ids(snapshot);
    var nds := store.nodes;
    var out: seq<Node> := [];
    var i := 0;
    while i < |nds|
      invariant 0 <= i <= |nds|
      invariant |out| == i
      invariant forall j :: 0 <= j < i ==> out[j] == nds[j].(data := PrunedBag(nds[j].data, ids))
      invariant store.edges == old(store.edges)
    {
      var node := nds[i];
      var data := PruneBag(node.data, ids);
      assert data == PrunedBag(node.data, ids);
      out := out + [node.(data := data)];
      i := i + 1;
    }
    store.nodes := out;
  }

  /** After pruning, every key of every data bag is a node id. */
  lemma PruneLeavesOnlyIds(nds: seq<Node>, ids: set<string>)
    ensures forall i :: 0 <= i < |nds| ==> PruneAll(nds, ids)[i].data.Keys <= ids
  {
  }

  /** Pruning keeps every entry whose key is a node id, with its value. */
  lemma PruneKeepsIdEntries(nds: seq<Node>, ids: set<string>)
    ensures forall i, k :: 0 <= i < |nds| && k in nds[i].data && k in ids ==>
              k in PruneAll(nds, ids)[i].data && PruneAll(nds, ids)[i].data[k] == nds[i].data[k]
  {
  }

  /** Pruning keeps the number and order of the nodes, their ids and their selection flags. */
  lemma PruneKeepsNodes(nds: seq<Node>, ids: set<string>)
    ensures |PruneAll(nds, ids)| == |nds|
    ensures forall i :: 0 <= i < |nds| ==>
              PruneAll(nds, ids)[i].id == nds[i].id && PruneAll(nds, ids)[i].selected == nds[i].selected
  {
  }

  /** Pruning twice against the same ids is pruning once. */
  lemma PruneIdempotent(nds: seq<Node>, ids: set<string>)
    ensures PruneAll(PruneAll(nds, ids), ids) == PruneAll(nds, ids)
  {
    var once := PruneAll(nds, ids);
    var twice := PruneAll(once, ids);
    forall i | 0 <= i < |nds| ensures twice[i] == once[i] {
      assert PrunedBag(once[i].data, ids) == once[i].data;
    }
  }

  // ---------------------------------------------------------------------
  // Select-all on Ctrl-A
  // ---------------------------------------------------------------------

  /** `s.split("-")[0]`: the text of `s` before its first "-", or all of `s` when it has none. */
  function FirstSegment(s: string): (r: string)
    ensures r <= s
    ensures '-' !in r
    ensures |r| < |s| ==> s[|r|] == '-'
  {
    if s == [] || s[0] == '-' then []
    else [s[0]] + FirstSegment(s[1..])
  }

  /** The node list with every node selected and nothing else changed. */
  function SelectAll(nds: seq<Node>): seq<Node>
  {
    seq(|nds|, i requires 0 <= i < |nds| => nds[i].(selected := true))
  }

  /** The node list after the Ctrl-A effect has seen the key-press text `ctrlAPress`. */
  function AfterCtrlA(nds: seq<Node>, ctrlAPress: string): seq<Node>
  {
    if FirstSegment(ctrlAPress) == "true" then SelectAll(nds) else nds
  }

  /** The Ctrl-A effect: select every node when the text before the first "-" is "true". */
  method OnCtrlAPress(store: FlowStore, ctrlAPress: string)
    modifies store
    ensures store.nodes == AfterCtrlA(old(store.nodes), ctrlAPress)
    ensures store.edges == old(store.edges)
  {
    if FirstSegment(ctrlAPress) == "true" {
      store.nodes := SelectAll(store.nodes);
    }
  }

  /** The text before the first "-" is "true" exactly when the press text is "true" or starts with "true-". */
  lemma SegmentIsTrue(ctrlAPress: string)
    ensures FirstSegment(ctrlAPress) == "true" <==> ctrlAPress == "true" || "true-" <= ctrlAPress
  {
    var p := FirstSegment(ctrlAPress);
    if p == "true" && |ctrlAPress| > 4 {
      assert ctrlAPress[..5] == "true-";
    }
    if "true-" <= ctrlAPress {
      assert forall j :: 0 <= j < 4 ==> ctrlAPress[j] == "true"[j] != '-';
      assert ctrlAPress[4] == '-' && '-' !in p;
    } else if ctrlAPress == "true" {
      assert forall j :: 0 <= j < 4 ==> ctrlAPress[j] == "true"[j] != '-';
    }
  }

  /** When the press text starts with "true" up to its first "-", every node is selected afterwards,
      and the number, order, ids and data bags of the nodes are kept. */
  lemma CtrlASelectsEveryNode(nds: seq<Node>, ctrlAPress: string)
    requires ctrlAPress == "true" || "true-" <= ctrlAPress
    ensures |AfterCtrlA(nds, ctrlAPress)| == |nds|
    ensures forall i :: 0 <= i < |nds| ==>
              && AfterCtrlA(nds, ctrlAPress)[i].selected
              && AfterCtrlA(nds, ctrlAPress)[i].id == nds[i].id
              && AfterCtrlA(nds, ctrlAPress)[i].data == nds[i].data
  {
    SegmentIsTrue(ctrlAPress);
  }

  /** Any other press text leaves the node list as it was. */
  lemma CtrlAOtherwiseUnchanged(nds: seq<Node>, ctrlAPress: string)
    requires ctrlAPress != "true" && !("true-" <= ctrlAPress)
    ensures AfterCtrlA(nds, ctrlAPress) == nds
  {
    SegmentIsTrue(ctrlAPress);
  }
}
