/** Which chains a receiver would need before it could check a transaction
    (`Proof.appendChains2`), and why stopping early loses none of them. */
module ChainReach {
  import opened Ledger

  /** The meta knowledge kept about one peer: the last block it knows of each chain. */
  type Knowledge = map<NodeId, nat>

  function LastKnown(known: Knowledge, node: NodeId): int {
    if node in known then known[node] else -1
  }

  /** A transaction the receiver needs nothing for: genesis, its own, or already known. */
  predicate Skipped(t: Transaction, receiver: NodeId, known: Knowledge) {
    t.sender.None? || t.sender.value == receiver || LastKnown(known, t.sender.value) >= t.block
  }

  /** Every chain reachable from `t` through transactions the receiver does not know. */
  function Reach(t: Transaction, receiver: NodeId, known: Knowledge): set<NodeId> {
    if Skipped(t, receiver, known) then {}
    else {t.sender.value} + set s, c | s in t.source && c in Reach(s, receiver, known) :: c
  }

  /** All senders that occur in the history of `t` are among `nodes`. */
  ghost predicate SendersIn(t: Transaction, nodes: set<NodeId>) {
    && (t.sender.Some? ==> t.sender.value in nodes)
    && forall s | s in t.source :: SendersIn(s, nodes)
  }

  lemma {:induction false} ReachBound(t: Transaction, receiver: NodeId, known: Knowledge, nodes: set<NodeId>)
    requires SendersIn(t, nodes)
    ensures Reach(t, receiver, known) <= nodes - {receiver}
  {
    forall s | s in t.source {
      ReachBound(s, receiver, known, nodes);
    }
  }

  function ReachAll(ts: set<Transaction>, receiver: NodeId, known: Knowledge): set<NodeId> {
    set s, c | s in ts && c in Reach(s, receiver, known) :: c
  }

  lemma {:induction false} ReachAllPick(ts: set<Transaction>, s: Transaction, receiver: NodeId, known: Knowledge)
    requires s in ts
    ensures ReachAll(ts, receiver, known) == Reach(s, receiver, known) + ReachAll(ts - {s}, receiver, known)
  {
  }

  /** `Map.merge` with `Math::max`. */
  function MergeMax(chains: map<NodeId, nat>, owner: NodeId, block: nat): (out: map<NodeId, nat>)
    ensures out.Keys == chains.Keys + {owner}
    ensures block <= out[owner]
  {
    chains[owner := if owner in chains && chains[owner] > block then chains[owner] else block]
  }

  lemma CutOffIsFull(keys: set<NodeId>, nodes: set<NodeId>, receiver: NodeId)
    requires receiver in nodes && keys <= nodes - {receiver}
    ensures |keys| >= |nodes| - 1 <==> keys == nodes - {receiver}
  {
    SubsetSize(keys, nodes - {receiver});
  }

  /** The recursion over sources with its cut-off.  The key set it leaves is the
      full reachable set, whatever the order of the sources and however early the
      cut-off strikes. */
  method AppendChains2(nrOfNodes: nat, t: Transaction, receiver: NodeId, known: Knowledge,
                       chains: map<NodeId, nat>, ghost nodes: set<NodeId>)
    returns (out: map<NodeId, nat>)
    requires |nodes| == nrOfNodes && receiver in nodes && SendersIn(t, nodes)
    requires chains.Keys <= nodes - {receiver}
    ensures forall c :: c in out <==> (c in chains || c in Reach(t, receiver, known))
    decreases t
  {
    ReachBound(t, receiver, known, nodes);
    out := chains;
    if t.sender.None? || t.sender.value == receiver {
      return;
    }
    var owner := t.sender.value;
    if LastKnown(known, owner) >= t.block {
      return;
    }
    out := MergeMax(out, owner, t.block);
    CutOffIsFull(out.Keys, nodes, receiver);
    if |out| >= nrOfNodes - 1 {
      // Every node but the receiver is in already.
      return;
    }
    var todo := t.source;
    while todo != {}
      invariant todo <= t.source
      invariant out.Keys <= nodes - {receiver}
      invariant forall c :: (c in out || c in ReachAll(todo, receiver, known))
                            <==> (c in chains || c in Reach(t, receiver, known))
      decreases todo
    {
      var source :| source in todo;
      ReachAllPick(todo, source, receiver, known);
      ReachBound(source, receiver, known, nodes);
      out := AppendChains2(nrOfNodes, source, receiver, known, out, nodes);
      todo := todo - {source};
    }
  }
}
