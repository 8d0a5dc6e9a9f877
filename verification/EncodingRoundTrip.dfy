/** Encoding a proof and decoding it gives back the proof: the same blocks, sources,
    back pointers and main transaction; and applying the decoded blocks gives the
    receiver a graph that it can decode the next proof against. */
module EncodingRoundTrip {
  import opened Ledger
  import opened Encoding

  type Copies = map<NodeId, seq<Block>>

  function Blocks(c: Copies, k: NodeId): seq<Block> {
    if k in c then c[k] else []
  }

  // ---- the receiver before the message ----

  /** The records of our chains spell out our chains, with pointers among themselves only. */
  ghost predicate Spells(own: Chains, copies: Copies) {
    && (forall k :: |ChainOf(own, k)| == |Blocks(copies, k)|)
    && (forall k, b: nat | b < |Blocks(copies, k)| :: SpellsBlock(own, k, b, Blocks(copies, k)[b]))
  }

  ghost predicate SpellsBlock(own: Chains, k: NodeId, b: nat, block: Block)
    requires b < |ChainOf(own, k)|
  {
    && ChainOf(own, k)[b].number == block.number
    && |ChainOf(own, k)[b].transactions| == |block.transactions|
    && forall i: nat | i < |block.transactions| :: Denotes(Graph(own, map[]), Old(k, b, i), block.transactions[i])
  }

  /** New blocks do not change what a location of our own chains denotes. */
  lemma {:induction false} OldStays(own: Chains, updates: Chains, l: Location, t: Transaction)
    requires Denotes(Graph(own, map[]), l, t)
    ensures l.Old? && Denotes(Graph(own, updates), l, t)
    decreases t
  {
    var r := Lookup(Graph(own, map[]), l).value;
    assert Lookup(Graph(own, updates), l) == Some(r);
    forall s | s in t.source
      ensures OneDenotes(Graph(own, updates), r.source, s)
    {
      assert OneDenotes(Graph(own, map[]), r.source, s);
      var m :| m in r.source && Denotes(Graph(own, map[]), m, s);
      OldStays(own, updates, m, s);
    }
    forall m | m in r.source
      ensures DenotesSourceOf(Graph(own, updates), m, t)
    {
      assert DenotesSourceOf(Graph(own, map[]), m, t);
      var s :| s in t.source && Denotes(Graph(own, map[]), m, s);
      OldStays(own, updates, m, s);
    }
  }

  // ---- a proof that closes what the receiver has ----

  ghost predicate UniqueNumbers(b: Block) {
    forall i, j | 0 <= i < j < |b.transactions| :: b.transactions[i].number != b.transactions[j].number
  }

  ghost predicate NamesNodes(nodes: set<NodeId>, t: Transaction) {
    t.receiver in nodes && (t.sender.Some? ==> t.sender.value in nodes)
  }

  /** `t` is in block `b` of chain `k`, in our copy or in the proof. */
  ghost predicate Shown(copies: Copies, sent: Copies, k: NodeId, b: nat, t: Transaction) {
    var c, u := Blocks(copies, k), Blocks(sent, k);
    if b < |c| then t in c[b].transactions
    else u != [] && u[0].number <= b < u[0].number + |u| && t in u[b - u[0].number].transactions
  }

  /** A segment attaches to our copy, is numbered without gaps, and names known nodes. */
  ghost predicate SegmentFits(nodes: set<NodeId>, c: seq<Block>, u: seq<Block>) {
    && (u != [] ==> u[0].number <= |c|)
    && forall i | 0 <= i < |u| ::
         && u[i].number == u[0].number + i && UniqueNumbers(u[i])
         && forall t | t in u[i].transactions :: t.block == u[i].number && NamesNodes(nodes, t)
  }

  ghost predicate SourcesShown(copies: Copies, sent: Copies, t: Transaction) {
    forall s | s in t.source :: Shown(copies, sent, Home(s), s.block, s)
  }

  ghost predicate Closing(nodes: set<NodeId>, copies: Copies, sent: Copies) {
    && (forall k, b | 0 <= b < |Blocks(copies, k)| :: UniqueNumbers(Blocks(copies, k)[b]))
    && (forall k :: SegmentFits(nodes, Blocks(copies, k), Blocks(sent, k)))
    && (forall k, b, t | 0 <= b < |Blocks(sent, k)| && t in Blocks(sent, k)[b].transactions :: SourcesShown(copies, sent, t))
  }

  /** Encoding, seen from one receiver. */
  ghost predicate Shipment(nodes: set<NodeId>, own: Chains, copies: Copies, sent: Copies, m: ProofMessage) {
    && Spells(own, copies) && Closing(nodes, copies, sent)
    && (forall k :: k in m.chainUpdates <==> k in sent && sent[k] != [])
    && forall k | k in m.chainUpdates :: AreBlockMessages(m.chainUpdates[k], sent[k])
  }

  // ---- references lead back to the transactions they were made from ----

  lemma {:induction false} IndexFinds(ts: seq<Record>, i: nat)
    requires i < |ts| && forall j | 0 <= j < i :: ts[j].number != ts[i].number
    ensures IndexOf(ts, ts[i].number) == Some(i)
  {
    if i > 0 {
      IndexFinds(ts[1..], i - 1);
    }
  }

  /** A location that holds `s`, not beside but in our copy when our copy reaches that far. */
  ghost predicate Holds(copies: Copies, sent: Copies, l: Location, s: Transaction) {
    var c, u := Blocks(copies, l.owner), Blocks(sent, l.owner);
    if l.Old? then l.block < |c| && l.index < |c[l.block].transactions| && c[l.block].transactions[l.index] == s
    else l.block < |u| && l.index < |u[l.block].transactions| && u[l.block].transactions[l.index] == s
         && u[0].number + l.block >= |c|
  }

  lemma OldNumber(own: Chains, k: NodeId, b: nat, block: Block, i: nat)
    requires b < |ChainOf(own, k)| && SpellsBlock(own, k, b, block) && i < |block.transactions|
    ensures ChainOf(own, k)[b].transactions[i].number == block.transactions[i].number
  {
    assert Denotes(Graph(own, map[]), Old(k, b, i), block.transactions[i]);
  }

  lemma OldReference(own: Chains, k: NodeId, b: nat, block: Block, s: Transaction) returns (i: nat)
    requires b < |ChainOf(own, k)| && SpellsBlock(own, k, b, block) && UniqueNumbers(block) && s in block.transactions
    ensures IndexOf(ChainOf(own, k)[b].transactions, s.number) == Some(i)
    ensures i < |block.transactions| && block.transactions[i] == s
  {
    i :| 0 <= i < |block.transactions| && block.transactions[i] == s;
    var ts := ChainOf(own, k)[b].transactions;
    forall j: nat | j <= i
      ensures ts[j].number == block.transactions[j].number
    {
      OldNumber(own, k, b, block, j);
    }
    IndexFinds(ts, i);
  }

  lemma NewReference(nodes: set<NodeId>, ms: seq<BlockMessage>, u: seq<Block>, b: nat, s: Transaction) returns (i: nat)
    requires AreBlockMessages(ms, u) && b < |u| && UniqueNumbers(u[b]) && s in u[b].transactions
    ensures IndexOf(BareSegment(nodes, ms)[b].transactions, s.number) == Some(i)
    ensures i < |u[b].transactions| && u[b].transactions[i] == s
  {
    i :| 0 <= i < |u[b].transactions| && u[b].transactions[i] == s;
    BareFields(nodes, ms, u);
    IndexFinds(BareSegment(nodes, ms)[b].transactions, i);
  }

  lemma ResolvesOld(own: Chains, shape: Chains, block: Block, s: Transaction) returns (l: Location)
    requires s.block < |ChainOf(own, Home(s))| && SpellsBlock(own, Home(s), s.block, block)
    requires UniqueNumbers(block) && s in block.transactions
    ensures Resolve(own, shape, SourceOf(s)) == Some(l)
    ensures l.Old? && l.owner == Home(s) && l.block == s.block && l.index < |block.transactions| && block.transactions[l.index] == s
  {
    var i := OldReference(own, Home(s), s.block, block, s);
    l := Old(Home(s), s.block, i);
  }

  lemma ResolvesNew(nodes: set<NodeId>, own: Chains, m: ProofMessage, u: seq<Block>, s: Transaction) returns (l: Location)
    requires s.block >= |ChainOf(own, Home(s))| && Home(s) in m.chainUpdates && AreBlockMessages(m.chainUpdates[Home(s)], u)
    requires u != [] && u[0].number <= s.block < u[0].number + |u| && UniqueNumbers(u[s.block - u[0].number])
    requires s in u[s.block - u[0].number].transactions
    ensures Resolve(own, BareChains(nodes, m), SourceOf(s)) == Some(l)
    ensures l.New? && l.owner == Home(s) && l.block == s.block - u[0].number
    ensures l.index < |u[l.block].transactions| && u[l.block].transactions[l.index] == s
  {
    BareFields(nodes, m.chainUpdates[Home(s)], u);
    var i := NewReference(nodes, m.chainUpdates[Home(s)], u, s.block - u[0].number, s);
    l := New(Home(s), s.block - u[0].number, i);
  }

  lemma ReferenceResolves(nodes: set<NodeId>, own: Chains, copies: Copies, sent: Copies, m: ProofMessage, s: Transaction)
    returns (l: Location)
    requires Shipment(nodes, own, copies, sent, m) && Shown(copies, sent, Home(s), s.block, s)
    ensures Resolve(own, BareChains(nodes, m), SourceOf(s)) == Some(l) && Holds(copies, sent, l, s)
  {
    var c, u := Blocks(copies, Home(s)), Blocks(sent, Home(s));
    if s.block < |c| {
      assert SpellsBlock(own, Home(s), s.block, c[s.block]) && UniqueNumbers(c[s.block]);
      l := ResolvesOld(own, BareChains(nodes, m), c[s.block], s);
    } else {
      assert SegmentFits(nodes, c, u) && UniqueNumbers(u[s.block - u[0].number]);
      l := ResolvesNew(nodes, own, m, u, s);
    }
  }

  /** The decoded blocks without sources, field by field. */
  lemma BareFields(nodes: set<NodeId>, ms: seq<BlockMessage>, u: seq<Block>)
    requires AreBlockMessages(ms, u)
    ensures var bs := BareSegment(nodes, ms);
            && |bs| == |u|
            && forall b | 0 <= b < |u| ::
                 && bs[b].number == u[b].number && bs[b].owner == NodeOf(nodes, SenderId(u[b].owner))
                 && |bs[b].transactions| == |u[b].transactions|
                 && forall i | 0 <= i < |u[b].transactions| ::
                      bs[b].transactions[i] == WithoutSources(nodes, MessageOf(u[b].transactions[i]), u[b].number)
  {
    forall b | 0 <= b < |u|
      ensures IsBlockMessage(ms[b], u[b])
    {
    }
  }

  /** Nothing in the message makes the decoder fail, */
  lemma ShipmentDecodable(nodes: set<NodeId>, own: Chains, copies: Copies, sent: Copies, m: ProofMessage)
    requires Shipment(nodes, own, copies, sent, m)
    ensures Decodable(nodes, own, m)
  {
    var bare := BareChains(nodes, m);
    forall k | k in m.chainUpdates
      ensures Attaches(own, k, BareSegment(nodes, m.chainUpdates[k]))
      ensures SegmentResolvable(own, bare, BareSegment(nodes, m.chainUpdates[k]))
    {
      BareFields(nodes, m.chainUpdates[k], sent[k]);
      assert SegmentFits(nodes, Blocks(copies, k), Blocks(sent, k));
      forall b, i, x | 0 <= b < |sent[k]| && 0 <= i < |sent[k][b].transactions| && x in MessageOf(sent[k][b].transactions[i]).source
        ensures Resolve(own, bare, x).Some?
      {
        var t := sent[k][b].transactions[i];
        assert t in Blocks(sent, k)[b].transactions && SourcesShown(copies, sent, t);
        var s :| s in t.source && x == SourceOf(s);
        var l := ReferenceResolves(nodes, own, copies, sent, m, s);
      }
    }
  }

  /** and every transaction of it comes out as it went in, its whole history included, */
  lemma {:induction false} NewDenotes(nodes: set<NodeId>, own: Chains, copies: Copies, sent: Copies, m: ProofMessage,
                                      updates: Chains, k: NodeId, b: nat, i: nat)
    requires Shipment(nodes, own, copies, sent, m) && Decoded(nodes, own, m, updates)
    requires b < |Blocks(sent, k)| && i < |Blocks(sent, k)[b].transactions|
    ensures Denotes(Graph(own, updates), New(k, b, i), Blocks(sent, k)[b].transactions[i])
    decreases Blocks(sent, k)[b].transactions[i]
  {
    var g, t := Graph(own, updates), sent[k][b].transactions[i];
    var bare := BareChains(nodes, m);
    DecodedRecord(nodes, own, copies, sent, m, updates, k, b, i);
    var r := Lookup(g, New(k, b, i)).value;
    assert t in Blocks(sent, k)[b].transactions && SourcesShown(copies, sent, t);
    forall s | s in t.source
      ensures LeadsTo(g, own, bare, SourceOf(s), s)
    {
      var l := ReferenceResolves(nodes, own, copies, sent, m, s);
      if l.Old? {
        HeldIsDenoted(own, copies, sent, updates, l, s);
      } else {
        NewDenotes(nodes, own, copies, sent, m, updates, l.owner, l.block, l.index);
      }
    }
    RecordDenotes(g, own, bare, New(k, b, i), WithoutSources(nodes, MessageOf(t), sent[k][b].number), t);
  }

  lemma {:induction false} HeldIsDenoted(own: Chains, copies: Copies, sent: Copies, updates: Chains, l: Location, s: Transaction)
    requires Spells(own, copies) && Holds(copies, sent, l, s) && l.Old?
    ensures Denotes(Graph(own, updates), l, s)
  {
    assert SpellsBlock(own, l.owner, l.block, Blocks(copies, l.owner)[l.block]);
    OldStays(own, updates, l, s);
  }

  /** The reference `x` leads to a place that denotes `s`. */
  ghost predicate LeadsTo(g: Graph, own: Chains, shape: Chains, x: Source, s: Transaction) {
    var l := Resolve(own, shape, x);
    l.Some? && Denotes(g, l.value, s)
  }

  ghost predicate AllLead(g: Graph, own: Chains, shape: Chains, t: Transaction) {
    forall s | s in t.source :: LeadsTo(g, own, shape, SourceOf(s), s)
  }

  /** A record whose references lead to its sources denotes the transaction. */
  lemma {:induction false} RecordDenotes(g: Graph, own: Chains, shape: Chains, at: Location, bare: Record, t: Transaction)
    requires Lookup(g, at).Some? && SameFields(Lookup(g, at).value, t) && bare.message == MessageOf(t)
    requires SourcesFixed(own, shape, bare, Lookup(g, at).value)
    requires AllLead(g, own, shape, t)
    ensures Denotes(g, at, t)
  {
    var r := Lookup(g, at).value;
    forall s | s in t.source
      ensures OneDenotes(g, r.source, s)
    {
      SourceReached(g, own, shape, bare, r, t, s);
    }
    forall l | l in r.source
      ensures DenotesSourceOf(g, l, t)
    {
      SourceGiven(g, own, shape, bare, r, t, l);
    }
    FoundDenotes(g, at, t);
  }

  lemma {:induction false} FoundDenotes(g: Graph, at: Location, t: Transaction)
    requires Lookup(g, at).Some? && SameFields(Lookup(g, at).value, t)
    requires forall s | s in t.source :: OneDenotes(g, Lookup(g, at).value.source, s)
    requires forall l | l in Lookup(g, at).value.source :: DenotesSourceOf(g, l, t)
    ensures Denotes(g, at, t)
  {
    var r := Lookup(g, at);
    assert forall s | s in t.source :: OneDenotes(g, r.value.source, s);
    assert forall l | l in r.value.source :: DenotesSourceOf(g, l, t);
  }

  lemma {:induction false} SourceReached(g: Graph, own: Chains, shape: Chains, bare: Record, r: Record, t: Transaction, s: Transaction)
    requires SourcesFixed(own, shape, bare, r) && bare.message == MessageOf(t)
    requires s in t.source && LeadsTo(g, own, shape, SourceOf(s), s)
    ensures OneDenotes(g, r.source, s)
  {
    assert SourceOf(s) in MessageOf(t).source;
    assert Resolve(own, shape, SourceOf(s)).value in r.source;
  }

  lemma {:induction false} SourceGiven(g: Graph, own: Chains, shape: Chains, bare: Record, r: Record, t: Transaction, l: Location)
    requires SourcesFixed(own, shape, bare, r) && bare.message == MessageOf(t)
    requires l in r.source && AllLead(g, own, shape, t)
    ensures DenotesSourceOf(g, l, t)
  {
    var x :| x in bare.message.source && Resolve(own, shape, x) == Some(l);
    var s :| s in t.source && x == SourceOf(s);
    assert LeadsTo(g, own, shape, x, s);
  }

  lemma DecodedRecord(nodes: set<NodeId>, own: Chains, copies: Copies, sent: Copies, m: ProofMessage,
                      updates: Chains, k: NodeId, b: nat, i: nat)
    requires Shipment(nodes, own, copies, sent, m) && Decoded(nodes, own, m, updates)
    requires b < |Blocks(sent, k)| && i < |Blocks(sent, k)[b].transactions|
    ensures var r := Lookup(Graph(own, updates), New(k, b, i));
            var t := Blocks(sent, k)[b].transactions[i];
            && r.Some? && SameFields(r.value, t)
            && SourcesFixed(own, BareChains(nodes, m), WithoutSources(nodes, MessageOf(t), Blocks(sent, k)[b].number), r.value)
  {
    var u := sent[k];
    var t := u[b].transactions[i];
    BareFields(nodes, m.chainUpdates[k], u);
    assert SegmentFits(nodes, Blocks(copies, k), u);
    assert t in u[b].transactions;
    var bare := BareSegment(nodes, m.chainUpdates[k]);
    assert BlockFixed(own, BareChains(nodes, m), bare[b], updates[k][b]);
    assert SourcesFixed(own, BareChains(nodes, m), bare[b].transactions[i], updates[k][b].transactions[i]);
  }

  /** The blocks of a decoded segment, but for their transactions. */
  lemma DecodedBlocks(nodes: set<NodeId>, own: Chains, u: seq<Block>, m: ProofMessage, updates: Chains, k: NodeId)
    requires Decoded(nodes, own, m, updates) && k in updates && AreBlockMessages(m.chainUpdates[k], u)
    ensures |updates[k]| == |u|
    ensures forall b | 0 <= b < |u| ::
              && updates[k][b].number == u[b].number && |updates[k][b].transactions| == |u[b].transactions|
              && updates[k][b].owner == NodeOf(nodes, SenderId(u[b].owner))
  {
    var bare := BareSegment(nodes, m.chainUpdates[k]);
    BareFields(nodes, m.chainUpdates[k], u);
    forall b | 0 <= b < |u|
      ensures BlockFixed(own, BareChains(nodes, m), bare[b], updates[k][b])
    {
    }
  }

  /** A decoded block has the number and the size of the block that was sent, and its owner if we know that one. */
  ghost predicate SameBlock(nodes: set<NodeId>, r: BlockRecord, b: Block) {
    && r.number == b.number && |r.transactions| == |b.transactions|
    && (b.owner.None? || b.owner.value in nodes ==> r.owner == b.owner)
  }

  lemma BlocksComeBack(nodes: set<NodeId>, own: Chains, sent: Copies, m: ProofMessage, updates: Chains)
    requires Decoded(nodes, own, m, updates)
    requires forall k | k in updates :: k in sent && k in m.chainUpdates && AreBlockMessages(m.chainUpdates[k], sent[k])
    ensures forall k | k in updates :: |updates[k]| == |sent[k]|
    ensures forall k, b | k in updates && 0 <= b < |sent[k]| :: SameBlock(nodes, updates[k][b], sent[k][b])
  {
    forall k | k in updates
      ensures |updates[k]| == |sent[k]|
      ensures forall b | 0 <= b < |sent[k]| :: SameBlock(nodes, updates[k][b], sent[k][b])
    {
      DecodedBlocks(nodes, own, sent[k], m, updates, k);
    }
  }

  /** The round trip: blocks come back with their numbers and, as far as we know their
      owners, with those; transactions with their whole histories. */
  lemma {:induction false} RoundTrip(nodes: set<NodeId>, own: Chains, copies: Copies, sent: Copies, t: Transaction, m: ProofMessage, updates: Chains)
    requires IsProofMessage(m, t, sent) && Spells(own, copies) && Closing(nodes, copies, sent)
    requires t.sender.Some? && Shown(copies, sent, t.sender.value, t.block, t)
    requires Decoded(nodes, own, m, updates)
    ensures Decodable(nodes, own, m)
    ensures forall k :: k in updates <==> k in sent && sent[k] != []
    ensures forall k | k in updates :: |updates[k]| == |sent[k]| && Linked(updates[k])
    ensures forall k, b | k in updates && 0 <= b < |sent[k]| ::
              SameBlock(nodes, updates[k][b], sent[k][b])
    ensures forall k, b: nat, i: nat | b < |Blocks(sent, k)| && i < |Blocks(sent, k)[b].transactions| ::
              Denotes(Graph(own, updates), New(k, b, i), Blocks(sent, k)[b].transactions[i])
    ensures var main := Resolve(own, BareChains(nodes, m), MainOf(m));
            main.Some? && Denotes(Graph(own, updates), main.value, t)
  {
    ShipmentDecodable(nodes, own, copies, sent, m);
    BlocksComeBack(nodes, own, sent, m, updates);
    forall k, b: nat, i: nat | b < |Blocks(sent, k)| && i < |Blocks(sent, k)[b].transactions|
      ensures Denotes(Graph(own, updates), New(k, b, i), Blocks(sent, k)[b].transactions[i])
    {
      NewDenotes(nodes, own, copies, sent, m, updates, k, b, i);
    }
    var l := ReferenceResolves(nodes, own, copies, sent, m, t);
    if l.Old? {
      HeldIsDenoted(own, copies, sent, updates, l, t);
    }
  }
}
