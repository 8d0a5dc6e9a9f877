/** One node's copy of a chain, and what a node believes a peer holds. */
module Replicas {
  import opened Ledger
  import opened ChainReach

  /** `next[i]` is the number of the next committed block of block i, or -1 while
      the pointer is null. */
  datatype Replica = Replica(blocks: seq<Block>, next: seq<int>)

  ghost predicate Numbered(blocks: seq<Block>) {
    forall i | 0 <= i < |blocks| :: blocks[i].number == i
  }

  function FirstUnknown(known: Knowledge, node: NodeId): nat {
    LastKnown(known, node) + 1
  }

  /** The blocks of `node` up to `end` that the peer is missing (`MetaKnowledge.getBlocksToSend`). */
  function BlocksToSend(known: Knowledge, peer: NodeId, node: NodeId, chain: seq<Block>, end: int): (r: seq<Block>)
    requires end < |chain|
    ensures r == [] <==> node == peer || FirstUnknown(known, node) > end
    ensures r != [] ==> |r| == end + 1 - FirstUnknown(known, node)
    ensures forall i | 0 <= i < |r| :: r[i] == chain[FirstUnknown(known, node) + i]
  {
    if node == peer || FirstUnknown(known, node) > end then []
    else From(chain[..end + 1], FirstUnknown(known, node))
  }

  /** What a node knows about the chains its peer holds (`MetaKnowledge`). */
  class MetaKnowledge {
    const owner: NodeId
    var known: Knowledge

    constructor (owner: NodeId)
      ensures this.owner == owner && known == map[]
    {
      this.owner := owner;
      known := map[];
    }

    /** Knowledge of one chain never goes down, and that of the others stays. */
    method UpdateLastKnownBlockNumber(node: NodeId, block: nat)
      modifies this
      ensures LastKnown(known, node) == if old(LastKnown(known, node)) < block then block else old(LastKnown(known, node))
      ensures forall k | k != node :: LastKnown(known, k) == old(LastKnown(known, k))
    {
      known := MergeMax(known, node, block);
    }

    /** `Node.updateMetaKnowledge`: the peer now has the last block of every segment of a proof. */
    method UpdateMetaKnowledge(updates: map<NodeId, seq<Block>>)
      modifies this
      ensures forall k :: LastKnown(known, k) == Learned(old(known), owner, updates, k)
    {
      var todo := updates.Keys;
      while todo != {}
        invariant todo <= updates.Keys
        invariant forall k | k in todo :: LastKnown(known, k) == LastKnown(old(known), k)
        invariant forall k | k !in todo :: LastKnown(known, k) == Learned(old(known), owner, updates, k)
        decreases todo
      {
        var node :| node in todo;
        todo := todo - {node};
        if node == owner || updates[node] == [] {
          continue;
        }
        var blocks := updates[node];
        UpdateLastKnownBlockNumber(node, blocks[|blocks| - 1].number);
      }
    }
  }

  function Learned(known: Knowledge, peer: NodeId, updates: map<NodeId, seq<Block>>, k: NodeId): int {
    if k in updates && k != peer && updates[k] != [] then
      var last := updates[k][|updates[k]| - 1].number;
      if last > LastKnown(known, k) then last else LastKnown(known, k)
    else LastKnown(known, k)
  }
}
