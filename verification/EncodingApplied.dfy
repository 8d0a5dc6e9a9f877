/** Applying a decoded proof (`Proof.applyUpdates`, `Chain.update`) leaves a graph that
    spells out the longer chains: the receiver is ready to decode the next message. */
module EncodingApplied {
  import opened Ledger
  import opened Encoding
  import opened EncodingRoundTrip

  /** How many decoded blocks of chain `k` we have already: those are dropped. */
  function Dropped(own: Chains, updates: Chains, k: NodeId): (r: nat)
    ensures r <= |ChainOf(updates, k)|
  {
    var c, u := ChainOf(own, k), ChainOf(updates, k);
    if u == [] || u[0].number >= |c| then 0
    else if |c| - u[0].number <= |u| then |c| - u[0].number else |u|
  }

  /** Where a transaction sits once the blocks are applied. */
  function Moved(updates: Chains, l: Location): Location {
    if l.New? && ChainOf(updates, l.owner) != [] then Old(l.owner, ChainOf(updates, l.owner)[0].number + l.block, l.index) else l
  }

  function MovedRecord(updates: Chains, r: Record): Record {
    r.(source := set l | l in r.source :: Moved(updates, l))
  }

  function MovedBlock(updates: Chains, b: BlockRecord): BlockRecord {
    BlockRecord(b.number, b.owner, if b.number > 0 then Some(OldBlock(b.number - 1)) else None,
                seq(|b.transactions|, i requires 0 <= i < |b.transactions| => MovedRecord(updates, b.transactions[i])))
  }

  /** Our chains afterwards: the records are the same objects, under their new addresses. */
  function Applied(own: Chains, updates: Chains): Chains {
    map k | k in own.Keys + updates.Keys :: AppliedChain(own, updates, k)
  }

  function AppliedChain(own: Chains, updates: Chains, k: NodeId): seq<BlockRecord> {
    var u, skip := ChainOf(updates, k), Dropped(own, updates, k);
    ChainOf(own, k) + seq(|u| - skip, i requires 0 <= i < |u| - skip => MovedBlock(updates, u[skip + i]))
  }

  /** The same on values. */
  function Grown(copies: Copies, sent: Copies, k: NodeId): seq<Block> {
    Joined(Blocks(copies, k), Blocks(sent, k))
  }

  function Joined(c: seq<Block>, u: seq<Block>): seq<Block> {
    if u == [] || u[0].number >= |c| then c + u
    else if |c| - u[0].number <= |u| then c + u[|c| - u[0].number..] else c
  }

  function GrownCopies(copies: Copies, sent: Copies): Copies {
    map k | k in copies.Keys + sent.Keys :: Grown(copies, sent, k)
  }

  lemma GrownAt(copies: Copies, sent: Copies, k: NodeId)
    ensures Blocks(GrownCopies(copies, sent), k) == Grown(copies, sent, k)
  {
    if k !in copies && k !in sent {
      assert Grown(copies, sent, k) == [];
    }
  }

  /** A place that survives: in our chains, or in a decoded block that is not dropped. */
  ghost predicate Live(own: Chains, updates: Chains, l: Location) {
    l.New? ==> ChainOf(updates, l.owner) != [] && ChainOf(updates, l.owner)[0].number + l.block >= |ChainOf(own, l.owner)|
  }

  ghost predicate LiveRecord(own: Chains, updates: Chains, l: Location) {
    Lookup(Graph(own, updates), l).Some? ==>
      forall m | m in Lookup(Graph(own, updates), l).value.source :: Live(own, updates, m)
  }

  /** Our own records point into our own chains only. */
  ghost predicate OldSources(own: Chains, updates: Chains, l: Location) {
    Lookup(Graph(own, updates), l).Some? ==> forall m | m in Lookup(Graph(own, updates), l).value.source :: m.Old?
  }

  /** Nothing that survives points to a block that is dropped. */
  ghost predicate NothingDangles(own: Chains, updates: Chains) {
    && (forall l: Location | Live(own, updates, l) :: LiveRecord(own, updates, l))
    && (forall l: Location | l.Old? :: OldSources(own, updates, l))
  }

  /** Every segment attaches to our copy. */
  ghost predicate AllAttach(own: Chains, updates: Chains) {
    forall k :: Attaches(own, k, ChainOf(updates, k))
  }

  lemma MovedLookup(own: Chains, updates: Chains, l: Location)
    requires Live(own, updates, l) && Lookup(Graph(own, updates), l).Some? && Attaches(own, l.owner, ChainOf(updates, l.owner))
    requires l.Old? ==> OldSources(own, updates, l)
    ensures Lookup(Graph(Applied(own, updates), map[]), Moved(updates, l))
            == Some(MovedRecord(updates, Lookup(Graph(own, updates), l).value))
  {
    var k, r := l.owner, Lookup(Graph(own, updates), l).value;
    var c, u, skip := ChainOf(own, k), ChainOf(updates, k), Dropped(own, updates, k);
    var applied := AppliedChain(own, updates, k);
    assert k in Applied(own, updates) && ChainOf(Applied(own, updates), k) == applied;
    if l.New? {
      assert u[0].number + l.block == |c| + (l.block - skip);
      assert applied[u[0].number + l.block] == MovedBlock(updates, u[l.block]);
    } else {
      assert applied[l.block] == c[l.block];
      assert r.source == set m | m in r.source :: Moved(updates, m);
    }
  }

  /** What a surviving place denoted before, it denotes afterwards. */
  lemma {:induction false} MovedDenotes(own: Chains, updates: Chains, l: Location, t: Transaction)
    requires AllAttach(own, updates) && NothingDangles(own, updates)
    requires Live(own, updates, l) && Denotes(Graph(own, updates), l, t)
    ensures Denotes(Graph(Applied(own, updates), map[]), Moved(updates, l), t)
    decreases t, 1
  {
    var r := Lookup(Graph(own, updates), l).value;
    assert LiveRecord(own, updates, l) && Attaches(own, l.owner, ChainOf(updates, l.owner));
    MovedLookup(own, updates, l);
    var g, moved := Graph(Applied(own, updates), map[]), MovedRecord(updates, r);
    forall s | s in t.source
      ensures OneDenotes(g, moved.source, s)
    {
      MovedSource(own, updates, r, s);
    }
    forall x | x in moved.source
      ensures DenotesSourceOf(g, x, t)
    {
      var m :| m in r.source && x == Moved(updates, m);
      MovedBack(own, updates, m, t);
    }
    FoundDenotes(g, Moved(updates, l), t);
  }

  lemma {:induction false} MovedSource(own: Chains, updates: Chains, r: Record, s: Transaction)
    requires AllAttach(own, updates) && NothingDangles(own, updates)
    requires (forall m | m in r.source :: Live(own, updates, m)) && OneDenotes(Graph(own, updates), r.source, s)
    ensures OneDenotes(Graph(Applied(own, updates), map[]), MovedRecord(updates, r).source, s)
    decreases s, 2
  {
    var m :| m in r.source && Denotes(Graph(own, updates), m, s);
    MovedDenotes(own, updates, m, s);
    assert Moved(updates, m) in MovedRecord(updates, r).source;
  }

  lemma {:induction false} MovedBack(own: Chains, updates: Chains, m: Location, t: Transaction)
    requires AllAttach(own, updates) && NothingDangles(own, updates)
    requires Live(own, updates, m) && DenotesSourceOf(Graph(own, updates), m, t)
    ensures DenotesSourceOf(Graph(Applied(own, updates), map[]), Moved(updates, m), t)
    decreases t, 0
  {
    var s :| s in t.source && Denotes(Graph(own, updates), m, s);
    MovedDenotes(own, updates, m, s);
  }

  // ---- after a shipment ----

  lemma SpelledIsOld(own: Chains, copies: Copies, updates: Chains, l: Location)
    requires Spells(own, copies) && l.Old?
    ensures OldSources(own, updates, l)
  {
    var r := Lookup(Graph(own, updates), l);
    if r.Some? {
      var block := Blocks(copies, l.owner)[l.block];
      assert SpellsBlock(own, l.owner, l.block, block);
      assert Lookup(Graph(own, map[]), l) == r;
      forall m | m in r.value.source
        ensures m.Old?
      {
        assert DenotesSourceOf(Graph(own, map[]), m, block.transactions[l.index]);
        var s :| s in block.transactions[l.index].source && Denotes(Graph(own, map[]), m, s);
        OldStays(own, updates, m, s);
      }
    }
  }

  lemma ResolvedIsLive(nodes: set<NodeId>, own: Chains, m: ProofMessage, updates: Chains, x: Source)
    requires Decoded(nodes, own, m, updates) && Resolve(own, BareChains(nodes, m), x).Some?
    ensures Live(own, updates, Resolve(own, BareChains(nodes, m), x).value)
  {
    var k := x.owner;
    if x.block >= |ChainOf(own, k)| {
      var bare := BareSegment(nodes, m.chainUpdates[k]);
      assert SegmentFixed(own, BareChains(nodes, m), bare, updates[k]);
      assert BlockFixed(own, BareChains(nodes, m), bare[0], updates[k][0]);
    }
  }

  lemma DecodedIsLive(nodes: set<NodeId>, own: Chains, m: ProofMessage, updates: Chains, l: Location)
    requires Decoded(nodes, own, m, updates) && l.New?
    ensures LiveRecord(own, updates, l)
  {
    if Lookup(Graph(own, updates), l).Some? {
      var r := Lookup(Graph(own, updates), l).value;
      var bare := BareSegment(nodes, m.chainUpdates[l.owner]);
      assert BlockFixed(own, BareChains(nodes, m), bare[l.block], updates[l.owner][l.block]);
      assert SourcesFixed(own, BareChains(nodes, m), bare[l.block].transactions[l.index], r);
      forall p | p in r.source
        ensures Live(own, updates, p)
      {
        var x :| x in r.message.source && Resolve(own, BareChains(nodes, m), x) == Some(p);
        ResolvedIsLive(nodes, own, m, updates, x);
      }
    }
  }

  lemma ShipmentDanglesNot(nodes: set<NodeId>, own: Chains, copies: Copies, sent: Copies, m: ProofMessage, updates: Chains)
    requires Shipment(nodes, own, copies, sent, m) && Decoded(nodes, own, m, updates)
    ensures NothingDangles(own, updates)
  {
    forall l: Location | l.Old?
      ensures OldSources(own, updates, l)
    {
      SpelledIsOld(own, copies, updates, l);
    }
    forall l: Location | Live(own, updates, l)
      ensures LiveRecord(own, updates, l)
    {
      if l.Old? {
        assert OldSources(own, updates, l);
      } else {
        DecodedIsLive(nodes, own, m, updates, l);
      }
    }
  }

  /** The decoded segment has the length and the numbers of the one that was sent. */
  lemma DecodedSegment(nodes: set<NodeId>, own: Chains, copies: Copies, sent: Copies, m: ProofMessage, updates: Chains, k: NodeId)
    requires Shipment(nodes, own, copies, sent, m) && Decoded(nodes, own, m, updates)
    ensures var u, v := Blocks(sent, k), ChainOf(updates, k);
            && |v| == |u|
            && forall b | 0 <= b < |u| :: v[b].number == u[b].number && |v[b].transactions| == |u[b].transactions|
    ensures Attaches(own, k, ChainOf(updates, k))
  {
    var u := Blocks(sent, k);
    if u != [] {
      BareFields(nodes, m.chainUpdates[k], u);
      var bare := BareSegment(nodes, m.chainUpdates[k]);
      assert SegmentFits(nodes, Blocks(copies, k), u);
      forall b | 0 <= b < |u|
        ensures BlockFixed(own, BareChains(nodes, m), bare[b], updates[k][b])
      {
      }
    }
  }

  lemma KeptSpells(own: Chains, updates: Chains, k: NodeId, b: nat, block: Block)
    requires AllAttach(own, updates) && NothingDangles(own, updates)
    requires b < |ChainOf(own, k)| && SpellsBlock(own, k, b, block)
    ensures b < |ChainOf(Applied(own, updates), k)| && SpellsBlock(Applied(own, updates), k, b, block)
  {
    assert k in own && ChainOf(Applied(own, updates), k) == AppliedChain(own, updates, k);
    assert AppliedChain(own, updates, k)[b] == own[k][b];
    forall i: nat | i < |block.transactions|
      ensures Denotes(Graph(Applied(own, updates), map[]), Old(k, b, i), block.transactions[i])
    {
      OldStays(own, updates, Old(k, b, i), block.transactions[i]);
      MovedDenotes(own, updates, Old(k, b, i), block.transactions[i]);
    }
  }

  ghost predicate DecodedAs(own: Chains, updates: Chains, k: NodeId, b: nat, block: Block)
    requires b < |ChainOf(updates, k)|
  {
    && ChainOf(updates, k)[b].number == block.number && |ChainOf(updates, k)[b].transactions| == |block.transactions|
    && forall i: nat | i < |block.transactions| :: Denotes(Graph(own, updates), New(k, b, i), block.transactions[i])
  }

  lemma AddedSpells(own: Chains, updates: Chains, k: NodeId, b: nat, block: Block)
    requires AllAttach(own, updates) && NothingDangles(own, updates)
    requires Dropped(own, updates, k) <= b < |ChainOf(updates, k)| && DecodedAs(own, updates, k, b, block)
    ensures var at := |ChainOf(own, k)| + b - Dropped(own, updates, k);
            at < |ChainOf(Applied(own, updates), k)| && SpellsBlock(Applied(own, updates), k, at, block)
  {
    var c, u, skip := ChainOf(own, k), ChainOf(updates, k), Dropped(own, updates, k);
    var at := |c| + b - skip;
    assert k in updates && ChainOf(Applied(own, updates), k) == AppliedChain(own, updates, k);
    assert AppliedChain(own, updates, k)[at] == MovedBlock(updates, u[b]);
    assert Attaches(own, k, u);
    forall i: nat | i < |block.transactions|
      ensures Denotes(Graph(Applied(own, updates), map[]), Old(k, at, i), block.transactions[i])
    {
      assert Moved(updates, New(k, b, i)) == Old(k, at, i);
      MovedDenotes(own, updates, New(k, b, i), block.transactions[i]);
    }
  }

  lemma SentIsDecoded(nodes: set<NodeId>, own: Chains, copies: Copies, sent: Copies, m: ProofMessage, updates: Chains, k: NodeId, b: nat)
    requires Shipment(nodes, own, copies, sent, m) && Decoded(nodes, own, m, updates)
    requires b < |Blocks(sent, k)|
    ensures b < |ChainOf(updates, k)| && DecodedAs(own, updates, k, b, Blocks(sent, k)[b])
  {
    DecodedSegment(nodes, own, copies, sent, m, updates, k);
    forall i: nat | i < |Blocks(sent, k)[b].transactions|
      ensures Denotes(Graph(own, updates), New(k, b, i), Blocks(sent, k)[b].transactions[i])
    {
      NewDenotes(nodes, own, copies, sent, m, updates, k, b, i);
    }
  }

  /** Our records spell out `c`, and the decoded ones `u`. */
  ghost predicate Matches(own: Chains, updates: Chains, k: NodeId, c: seq<Block>, u: seq<Block>) {
    && |ChainOf(own, k)| == |c| && |ChainOf(updates, k)| == |u|
    && (forall b: nat | b < |c| :: SpellsBlock(own, k, b, c[b]))
    && (forall b: nat | b < |u| :: DecodedAs(own, updates, k, b, u[b]))
  }

  lemma ShipmentMatches(nodes: set<NodeId>, own: Chains, copies: Copies, sent: Copies, m: ProofMessage, updates: Chains, k: NodeId)
    requires Shipment(nodes, own, copies, sent, m) && Decoded(nodes, own, m, updates)
    ensures Matches(own, updates, k, Blocks(copies, k), Blocks(sent, k)) && Attaches(own, k, ChainOf(updates, k))
  {
    DecodedSegment(nodes, own, copies, sent, m, updates, k);
    forall b: nat | b < |Blocks(sent, k)|
      ensures DecodedAs(own, updates, k, b, Blocks(sent, k)[b])
    {
      SentIsDecoded(nodes, own, copies, sent, m, updates, k, b);
    }
  }

  /** Chains and values grow by the same blocks. */
  lemma GrowsAlike(own: Chains, copies: Copies, sent: Copies, updates: Chains, k: NodeId, b: nat)
    requires |ChainOf(own, k)| == |Blocks(copies, k)| && |ChainOf(updates, k)| == |Blocks(sent, k)|
    requires Blocks(sent, k) != [] ==> ChainOf(updates, k)[0].number == Blocks(sent, k)[0].number
    requires |Blocks(copies, k)| <= b < |Grown(copies, sent, k)|
    ensures var i := b - |Blocks(copies, k)| + Dropped(own, updates, k);
            i < |Blocks(sent, k)| && Grown(copies, sent, k)[b] == Blocks(sent, k)[i]
  {
  }

  lemma GrownLength(own: Chains, copies: Copies, sent: Copies, updates: Chains, k: NodeId)
    requires Matches(own, updates, k, Blocks(copies, k), Blocks(sent, k))
    ensures |ChainOf(Applied(own, updates), k)| == |Grown(copies, sent, k)|
  {
    if k in own || k in updates {
      assert ChainOf(Applied(own, updates), k) == AppliedChain(own, updates, k);
    }
    if Blocks(sent, k) != [] {
      assert DecodedAs(own, updates, k, 0, Blocks(sent, k)[0]);
    }
  }

  lemma MatchedBlock(own: Chains, copies: Copies, sent: Copies, updates: Chains, k: NodeId, b: nat)
    requires Matches(own, updates, k, Blocks(copies, k), Blocks(sent, k)) && b < |Grown(copies, sent, k)|
    ensures b < |ChainOf(own, k)| ==> SpellsBlock(own, k, b, Grown(copies, sent, k)[b])
    ensures b >= |ChainOf(own, k)| ==>
              var i: nat := b - |ChainOf(own, k)| + Dropped(own, updates, k);
              i < |ChainOf(updates, k)| && DecodedAs(own, updates, k, i, Grown(copies, sent, k)[b])
  {
    var c, u := Blocks(copies, k), Blocks(sent, k);
    if b < |c| {
      assert Grown(copies, sent, k)[b] == c[b];
    } else {
      assert DecodedAs(own, updates, k, 0, u[0]);
      GrowsAlike(own, copies, sent, updates, k, b);
    }
  }

  /** The block at `b` of a grown chain is an old one or an added one. */
  lemma GrownBlockSpells(own: Chains, updates: Chains, k: NodeId, b: nat, block: Block)
    requires AllAttach(own, updates) && NothingDangles(own, updates)
    requires b < |ChainOf(own, k)| ==> SpellsBlock(own, k, b, block)
    requires b >= |ChainOf(own, k)| ==>
               var i: nat := b - |ChainOf(own, k)| + Dropped(own, updates, k);
               i < |ChainOf(updates, k)| && DecodedAs(own, updates, k, i, block)
    ensures b < |ChainOf(Applied(own, updates), k)| && SpellsBlock(Applied(own, updates), k, b, block)
  {
    if b < |ChainOf(own, k)| {
      KeptSpells(own, updates, k, b, block);
    } else {
      AddedSpells(own, updates, k, b - |ChainOf(own, k)| + Dropped(own, updates, k), block);
    }
  }

  ghost predicate ChainSpells(own: Chains, k: NodeId, c: seq<Block>) {
    |ChainOf(own, k)| == |c| && forall b: nat | b < |c| :: SpellsBlock(own, k, b, c[b])
  }

  lemma SpellsAll(own: Chains, copies: Copies)
    requires forall k :: ChainSpells(own, k, Blocks(copies, k))
    ensures Spells(own, copies)
  {
    forall k
      ensures |ChainOf(own, k)| == |Blocks(copies, k)|
      ensures forall b: nat | b < |Blocks(copies, k)| :: SpellsBlock(own, k, b, Blocks(copies, k)[b])
    {
      assert ChainSpells(own, k, Blocks(copies, k));
    }
  }

  lemma GrownChainSpells(own: Chains, copies: Copies, sent: Copies, updates: Chains, k: NodeId)
    requires AllAttach(own, updates) && NothingDangles(own, updates)
    requires Matches(own, updates, k, Blocks(copies, k), Blocks(sent, k))
    ensures ChainSpells(Applied(own, updates), k, Blocks(GrownCopies(copies, sent), k))
  {
    GrownAt(copies, sent, k);
    GrownLength(own, copies, sent, updates, k);
    forall b: nat | b < |Grown(copies, sent, k)|
      ensures SpellsBlock(Applied(own, updates), k, b, Grown(copies, sent, k)[b])
    {
      MatchedBlock(own, copies, sent, updates, k, b);
      GrownBlockSpells(own, updates, k, b, Grown(copies, sent, k)[b]);
    }
  }

  /** Decoding and applying a shipment gives chains that spell out the grown copies. */
  lemma AppliedSpells(nodes: set<NodeId>, own: Chains, copies: Copies, sent: Copies, m: ProofMessage, updates: Chains)
    requires Shipment(nodes, own, copies, sent, m) && Decoded(nodes, own, m, updates)
    ensures Spells(Applied(own, updates), GrownCopies(copies, sent))
  {
    ShipmentDanglesNot(nodes, own, copies, sent, m, updates);
    forall k
      ensures Matches(own, updates, k, Blocks(copies, k), Blocks(sent, k)) && Attaches(own, k, ChainOf(updates, k))
    {
      ShipmentMatches(nodes, own, copies, sent, m, updates, k);
    }
    forall k
      ensures ChainSpells(Applied(own, updates), k, Blocks(GrownCopies(copies, sent), k))
    {
      GrownChainSpells(own, copies, sent, updates, k);
    }
    SpellsAll(Applied(own, updates), GrownCopies(copies, sent));
  }
}
