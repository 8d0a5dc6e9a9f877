/** Messages of the protocol on the wire: in every run of honest nodes the first message of
    a channel survives encoding, decoding and applying. */
module ProtocolEncoding {
  import opened Ledger
  import opened Protocol
  import opened Replicas
  import opened ProtocolInvariant
  import opened ProtocolDelivery
  import opened ProtocolReceive
  import opened ProtocolIntact
  import opened ProtocolRuns
  import opened EncodingRoundTrip
  import opened ChainViews
  import CR = ChainReplication
  import E = Encoding
  import EA = EncodingApplied

  function CopiesOf(w: World, m: NodeId): Copies
    requires m in w.state
  {
    map k | k in w.state[m].copies :: w.state[m].copies[k].blocks
  }

  lemma CopiesOfAt(w: World, m: NodeId, k: NodeId)
    requires m in w.state
    ensures Blocks(CopiesOf(w, m), k) == Copy(w, m, k).blocks
  {
  }

  /** Genesis transactions are told apart by their numbers and go to nodes we know. */
  ghost predicate GenesisNamed(w: World) {
    UniqueNumbers(w.genesis) && forall t | t in w.genesis.transactions :: t.receiver in w.state
  }

  lemma OwnBlockUnique(w: World, k: NodeId, b: nat)
    requires OwnChainOk(w, k) && GenesisNamed(w) && b < |Own(w, k)|
    ensures UniqueNumbers(Own(w, k)[b])
  {
    var ts := Own(w, k)[b].transactions;
    if b > 0 && ts != [] {
      assert ts[0] in ts;
      assert ts == [ts[0]];
    }
  }

  lemma OwnTransactionNamed(w: World, k: NodeId, b: nat, t: Transaction)
    requires k in w.state && ChainsOk(w) && TransactionsOk(w) && GenesisNamed(w)
    requires b < |Own(w, k)| && t in Own(w, k)[b].transactions
    ensures t.block == b && NamesNodes(w.state.Keys, t)
  {
    assert OwnChainOk(w, k);
    if b > 0 {
      assert InChain(w, t) && TransactionOk(w, t);
    }
  }

  /** What a receiver sees of a chain, the encoding can refer to. */
  lemma CoveredIsShown(w: World, n: NodeId, m: NodeId, msg: Message, k: NodeId, b: nat, t: Transaction)
    requires m in w.state && k in w.state && OwnChainOk(w, k) && CopyOk(w, m, k) && Fits(w, n, m, msg)
    requires b < Covered(w, m, msg, k) && b < |Own(w, k)| && t in Own(w, k)[b].transactions
    ensures Shown(CopiesOf(w, m), msg.updates, k, b, t)
  {
    CopiesOfAt(w, m, k);
    var c, u := Copy(w, m, k).blocks, UpdateOf(msg.updates, k);
    if b < |c| {
      assert c[b] == Own(w, k)[b];
    } else {
      assert SegmentOk(w, n, m, k, u, |c|);
      SegmentNumbers(w, n, m, k, u, |c|);
      assert u[b - u[0].number] == Own(w, k)[b];
    }
  }

  lemma SightIsShown(w: World, n: NodeId, m: NodeId, msg: Message, t: Transaction)
    requires m in w.state && ChainsOk(w) && CopiesOk(w) && Fits(w, n, m, msg) && InSight(w, m, msg, t)
    ensures Shown(CopiesOf(w, m), msg.updates, Home(t), t.block, t)
  {
    assert OwnChainOk(w, Home(t)) && CopyOk(w, m, Home(t));
    CoveredIsShown(w, n, m, msg, Home(t), t.block, t);
  }

  lemma HeadFitsCopy(w: World, n: NodeId, m: NodeId, msg: Message, k: NodeId)
    requires m in w.state && ChainsOk(w) && TransactionsOk(w) && GenesisNamed(w) && Fits(w, n, m, msg)
    ensures SegmentFits(w.state.Keys, Blocks(CopiesOf(w, m), k), Blocks(msg.updates, k))
  {
    var u, c := UpdateOf(msg.updates, k), Copy(w, m, k).blocks;
    CopiesOfAt(w, m, k);
    if u != [] {
      assert SegmentOk(w, n, m, k, u, |c|) && OwnChainOk(w, k);
      SegmentNumbers(w, n, m, k, u, |c|);
      BlocksFit(w, n, m, k, u, |c|);
    }
  }

  lemma BlocksFit(w: World, n: NodeId, m: NodeId, k: NodeId, u: seq<Block>, limit: nat)
    requires ChainsOk(w) && TransactionsOk(w) && GenesisNamed(w) && SegmentOk(w, n, m, k, u, limit)
    ensures forall i | 0 <= i < |u| :: BlockFits(w, u[i])
  {
    assert OwnChainOk(w, k);
    forall i | 0 <= i < |u|
      ensures BlockFits(w, u[i])
    {
      SegmentAt(w, n, m, k, u, limit, u[0].number + i);
      OwnBlockFits(w, k, u[0].number + i);
    }
  }

  ghost predicate BlockFits(w: World, b: Block) {
    UniqueNumbers(b) && forall t | t in b.transactions :: t.block == b.number && NamesNodes(w.state.Keys, t)
  }

  lemma OwnBlockFits(w: World, k: NodeId, b: nat)
    requires k in w.state && ChainsOk(w) && TransactionsOk(w) && GenesisNamed(w) && b < |Own(w, k)|
    ensures BlockFits(w, Own(w, k)[b])
  {
    assert OwnChainOk(w, k);
    OwnBlockUnique(w, k, b);
    forall t | t in Own(w, k)[b].transactions
      ensures t.block == Own(w, k)[b].number && NamesNodes(w.state.Keys, t)
    {
      OwnTransactionNamed(w, k, b, t);
    }
  }

  lemma HeadSourcesShown(w: World, n: NodeId, m: NodeId, msg: Message, k: NodeId, b: nat, t: Transaction)
    requires m in w.state && ChainsOk(w) && CopiesOk(w) && TransactionsOk(w) && CopiesClosed(w)
    requires Fits(w, n, m, msg) && ClosesSight(w, m, msg)
    requires b < |Blocks(msg.updates, k)| && t in Blocks(msg.updates, k)[b].transactions
    ensures SourcesShown(CopiesOf(w, m), msg.updates, t)
  {
    if t.source != {} {
      CarriedInSight(w, n, m, msg, k, b, t);
      forall s | s in t.source
        ensures Shown(CopiesOf(w, m), msg.updates, Home(s), s.block, s)
      {
        SourcesInSight(w, n, m, msg, t, s);
        SightIsShown(w, n, m, msg, s);
      }
    }
  }

  /** A message that decodes closes what its receiver has. */
  lemma HeadCloses(w: World, n: NodeId, m: NodeId)
    requires Inv(w) && GenesisNamed(w) && m in w.state && Queue(w, n, m) != [] && Decodes(w, m, Queue(w, n, m)[0])
    ensures var msg := Queue(w, n, m)[0];
            && Fits(w, n, m, msg) && Closing(w.state.Keys, CopiesOf(w, m), msg.updates)
            && msg.main.sender == Some(n) && Shown(CopiesOf(w, m), msg.updates, n, msg.main.block, msg.main)
  {
    var msg := Queue(w, n, m)[0];
    assert ChannelOk(w, n, m);
    HeadFits(w, n, m);
    SightIsShown(w, n, m, msg, msg.main);
    forall k, b | 0 <= b < |Blocks(CopiesOf(w, m), k)|
      ensures UniqueNumbers(Blocks(CopiesOf(w, m), k)[b])
    {
      CopyBlockUnique(w, m, k, b);
    }
    forall k
      ensures SegmentFits(w.state.Keys, Blocks(CopiesOf(w, m), k), Blocks(msg.updates, k))
    {
      HeadFitsCopy(w, n, m, msg, k);
    }
    forall k, b, t | 0 <= b < |Blocks(msg.updates, k)| && t in Blocks(msg.updates, k)[b].transactions
      ensures SourcesShown(CopiesOf(w, m), msg.updates, t)
    {
      HeadSourcesShown(w, n, m, msg, k, b, t);
    }
  }

  lemma CopyBlockUnique(w: World, m: NodeId, k: NodeId, b: nat)
    requires m in w.state && ChainsOk(w) && CopiesOk(w) && GenesisNamed(w) && b < |Blocks(CopiesOf(w, m), k)|
    ensures UniqueNumbers(Blocks(CopiesOf(w, m), k)[b])
  {
    CopiesOfAt(w, m, k);
    assert CopyOk(w, m, k) && OwnChainOk(w, k);
    OwnBlockUnique(w, k, b);
  }

  // ---- applying it ----

  lemma UpdatedJoins(c: Replica, u: seq<Block>, cached: set<Block>)
    requires u != [] ==> u[0].number <= |c.blocks| && CR.Contiguous(u)
    ensures Updated(c, u, cached).blocks == EA.Joined(c.blocks, u)
  {
    if u == [] {
      assert c.blocks + [] == c.blocks;
    } else {
      CR.AcceptedIsSuffix(u, |c.blocks|);
      assert u[0..] == u;
    }
  }

  lemma HeadContiguous(w: World, n: NodeId, m: NodeId, msg: Message, k: NodeId)
    requires Fits(w, n, m, msg) && ChainsOk(w)
    ensures var u := UpdateOf(msg.updates, k);
            u != [] ==> u[0].number <= |Copy(w, m, k).blocks| && CR.Contiguous(u)
  {
    var u := UpdateOf(msg.updates, k);
    if u != [] {
      assert SegmentOk(w, n, m, k, u, |Copy(w, m, k).blocks|) && OwnChainOk(w, k);
      SegmentNumbers(w, n, m, k, u, |Copy(w, m, k).blocks|);
    }
  }

  /** Applying the decoded segments and updating the copies is the same thing. */
  lemma DeliveredGrows(w: World, n: NodeId, m: NodeId, k: NodeId)
    requires m in w.state && Queue(w, n, m) != [] && ChainsOk(w) && Fits(w, n, m, Queue(w, n, m)[0])
    requires Queue(w, n, m)[0].main.sender.Some?
    ensures var v := Absorb(Take(w, n, m), m, Queue(w, n, m)[0]);
            Blocks(CopiesOf(v, m), k) == EA.Grown(CopiesOf(w, m), Queue(w, n, m)[0].updates, k)
  {
    var msg := Queue(w, n, m)[0];
    var p := Take(w, n, m);
    var v := Absorb(p, m, msg);
    AbsorbCopies(p, m, msg);
    TakeFacts(w, n, m);
    assert Copy(p, m, k) == Copy(w, m, k);
    HeadContiguous(w, n, m, msg, k);
    UpdatedJoins(Copy(w, m, k), UpdateOf(msg.updates, k), w.state[m].cache);
    CopiesOfAt(v, m, k);
    CopiesOfAt(w, m, k);
  }

  lemma AllGrow(w: World, n: NodeId, m: NodeId)
    requires m in w.state && Queue(w, n, m) != [] && ChainsOk(w) && Fits(w, n, m, Queue(w, n, m)[0])
    requires Queue(w, n, m)[0].main.sender.Some?
    ensures var v, msg := Absorb(Take(w, n, m), m, Queue(w, n, m)[0]), Queue(w, n, m)[0];
            forall k :: Blocks(EA.GrownCopies(CopiesOf(w, m), msg.updates), k) == Blocks(CopiesOf(v, m), k)
  {
    var v, msg := Absorb(Take(w, n, m), m, Queue(w, n, m)[0]), Queue(w, n, m)[0];
    forall k
      ensures Blocks(EA.GrownCopies(CopiesOf(w, m), msg.updates), k) == Blocks(CopiesOf(v, m), k)
    {
      DeliveredGrows(w, n, m, k);
      EA.GrownAt(CopiesOf(w, m), msg.updates, k);
    }
  }

  lemma SpellsSame(own: E.Chains, a: Copies, b: Copies)
    requires Spells(own, a) && forall k :: Blocks(a, k) == Blocks(b, k)
    ensures Spells(own, b)
  {
    forall k
      ensures EA.ChainSpells(own, k, Blocks(b, k))
    {
      assert Blocks(a, k) == Blocks(b, k);
    }
    EA.SpellsAll(own, b);
  }

  lemma HeadSegmentsNonEmpty(w: World, n: NodeId, m: NodeId)
    requires ChannelOk(w, n, m) && Queue(w, n, m) != []
    ensures forall k | k in Queue(w, n, m)[0].updates :: Queue(w, n, m)[0].updates[k] != []
  {
    assert MessageOk(w, n, m, 0);
  }

  /** The head of a channel on the wire: it decodes, and every transaction in it comes out as it went in. */
  lemma HeadDecodes(w: World, n: NodeId, m: NodeId, own: E.Chains, wire: E.ProofMessage, updates: E.Chains)
    requires Inv(w) && GenesisNamed(w) && m in w.state && Queue(w, n, m) != [] && Decodes(w, m, Queue(w, n, m)[0])
    requires Spells(own, CopiesOf(w, m))
    requires E.IsProofMessage(wire, Queue(w, n, m)[0].main, Queue(w, n, m)[0].updates)
    requires E.Decoded(w.state.Keys, own, wire, updates)
    ensures wire.transaction.senderId == n && Queue(w, n, m)[0].main.sender == Some(n)
    ensures var msg := Queue(w, n, m)[0];
            var main := E.Resolve(own, E.BareChains(w.state.Keys, wire), E.MainOf(wire));
            && E.Decodable(w.state.Keys, own, wire)
            && main.Some? && E.Denotes(E.Graph(own, updates), main.value, msg.main)
            && (forall k :: k in updates <==> k in msg.updates)
            && forall k, b: nat, i: nat | b < |Blocks(msg.updates, k)| && i < |Blocks(msg.updates, k)[b].transactions| ::
                 E.Denotes(E.Graph(own, updates), E.New(k, b, i), Blocks(msg.updates, k)[b].transactions[i])
  {
    var msg := Queue(w, n, m)[0];
    HeadCloses(w, n, m);
    assert ChannelOk(w, n, m);
    HeadSegmentsNonEmpty(w, n, m);
    RoundTrip(w.state.Keys, own, CopiesOf(w, m), msg.updates, msg.main, wire, updates);
  }

  /** Once it is applied, the receiver's records spell out the receiver's new copies. */
  lemma HeadApplies(w: World, n: NodeId, m: NodeId, own: E.Chains, wire: E.ProofMessage, updates: E.Chains)
    requires Inv(w) && GenesisNamed(w) && m in w.state && Queue(w, n, m) != [] && Decodes(w, m, Queue(w, n, m)[0])
    requires Spells(own, CopiesOf(w, m)) && Queue(w, n, m)[0].main.sender.Some?
    requires E.IsProofMessage(wire, Queue(w, n, m)[0].main, Queue(w, n, m)[0].updates)
    requires E.Decoded(w.state.Keys, own, wire, updates)
    ensures Spells(EA.Applied(own, updates), CopiesOf(Absorb(Take(w, n, m), m, Queue(w, n, m)[0]), m))
  {
    var msg := Queue(w, n, m)[0];
    var v := Absorb(Take(w, n, m), m, msg);
    HeadCloses(w, n, m);
    EA.AppliedSpells(w.state.Keys, own, CopiesOf(w, m), msg.updates, wire, updates);
    assert ChannelOk(w, n, m);
    HeadFits(w, n, m);
    AllGrow(w, n, m);
    SpellsSame(EA.Applied(own, updates), EA.GrownCopies(CopiesOf(w, m), msg.updates), CopiesOf(v, m));
  }


  // ---- what decodes on the wire is what decodes in the protocol ----

  /** A reference that leads somewhere names a block that the receiver has or is given. */
  lemma ResolvedIsInRange(nodes: set<NodeId>, own: E.Chains, copies: Copies, msg: Message, wire: E.ProofMessage, x: E.Source)
    requires Spells(own, copies) && E.IsProofMessage(wire, msg.main, msg.updates)
    requires E.Resolve(own, E.BareChains(nodes, wire), x).Some?
    ensures var c, u := Blocks(copies, x.owner), Blocks(msg.updates, x.owner);
            x.block < |c| || (u != [] && u[0].number <= x.block < u[0].number + |u|)
  {
    var u := Blocks(msg.updates, x.owner);
    if x.block >= |Blocks(copies, x.owner)| {
      assert x.owner in wire.chainUpdates && u != [];
      BareFields(nodes, wire.chainUpdates[x.owner], u);
    }
  }

  /** In range of a copy or a piece of a chain, a block is that chain's block. */
  lemma RangeIsFound(w: World, n: NodeId, m: NodeId, msg: Message, t: Transaction)
    requires m in w.state && OwnChainOk(w, Home(t)) && CopyOk(w, m, Home(t))
    requires Home(t) in msg.updates ==> PieceOk(w, n, m, Home(t), msg.updates[Home(t)])
    requires t.block < |Own(w, Home(t))| && t in Own(w, Home(t))[t.block].transactions
    requires var c, u := Copy(w, m, Home(t)).blocks, UpdateOf(msg.updates, Home(t));
             t.block < |c| || (u != [] && u[0].number <= t.block < u[0].number + |u|)
    ensures FoundIn(w.state[m], msg.updates, t)
  {
    var k := Home(t);
    var c, u := Copy(w, m, k).blocks, UpdateOf(msg.updates, k);
    if t.block < |c| {
      assert c[t.block] == Own(w, k)[t.block];
    } else {
      assert u[t.block - u[0].number] == Own(w, k)[t.block];
    }
  }

  /** A source is where it says, in its chain. */
  lemma SourceInPlace(w: World, t: Transaction, s: Transaction)
    requires ChainsOk(w) && TransactionsOk(w) && InChain(w, t) && s in t.source
    ensures Home(s) in w.state && s.block < |Own(w, Home(s))| && s in Own(w, Home(s))[s.block].transactions
  {
    assert TransactionOk(w, t) && Spendable(w, t.sender.value, s) && OwnChainOk(w, t.sender.value);
  }

  /** What the integrity check finds for the view of the sender's chain. */
  predicate SenderViewIsValid(w: World, n: NodeId, m: NodeId, msg: Message) {
    Consistent(Copy(w, m, n).blocks, UpdateOf(msg.updates, n))
  }

  /** For the first message of a channel, the decoder gets through the wire message exactly
      when the protocol takes the message to decode. */
  lemma DecodesIff(w: World, n: NodeId, m: NodeId, own: E.Chains, wire: E.ProofMessage)
    requires Inv(w) && GenesisNamed(w) && m in w.state && Queue(w, n, m) != []
    requires Spells(own, CopiesOf(w, m))
    requires E.IsProofMessage(wire, Queue(w, n, m)[0].main, Queue(w, n, m)[0].updates)
    ensures wire.transaction.senderId == n
    ensures Decodes(w, m, Queue(w, n, m)[0])
            <==> E.Decodable(w.state.Keys, own, wire)
                 && E.Main(w.state.Keys, own, wire, SenderViewIsValid(w, n, m, Queue(w, n, m)[0])).Some?
  {
    HeadIsOk(w, n, m);
    var msg, nodes := Queue(w, n, m)[0], w.state.Keys;
    if Decodes(w, m, msg) {
      DecodedOnWire(w, n, m, own, wire);
    } else if E.Decodable(nodes, own, wire) && E.Main(nodes, own, wire, SenderViewIsValid(w, n, m, msg)).Some? {
      WireDecodes(w, n, m, own, wire);
    }
  }

  lemma DecodedOnWire(w: World, n: NodeId, m: NodeId, own: E.Chains, wire: E.ProofMessage)
    requires Inv(w) && GenesisNamed(w) && m in w.state && Queue(w, n, m) != [] && Decodes(w, m, Queue(w, n, m)[0])
    requires Queue(w, n, m)[0].main.sender == Some(n) && Spells(own, CopiesOf(w, m))
    requires E.IsProofMessage(wire, Queue(w, n, m)[0].main, Queue(w, n, m)[0].updates)
    ensures E.Decodable(w.state.Keys, own, wire)
    ensures E.Main(w.state.Keys, own, wire, SenderViewIsValid(w, n, m, Queue(w, n, m)[0])).Some?
  {
    HeadResolves(w, n, m, own, wire);
    ViewCoversMain(w, n, m, own, Queue(w, n, m)[0]);
  }

  lemma HeadResolves(w: World, n: NodeId, m: NodeId, own: E.Chains, wire: E.ProofMessage)
    requires Inv(w) && GenesisNamed(w) && m in w.state && Queue(w, n, m) != [] && Decodes(w, m, Queue(w, n, m)[0])
    requires Queue(w, n, m)[0].main.sender == Some(n) && Spells(own, CopiesOf(w, m))
    requires E.IsProofMessage(wire, Queue(w, n, m)[0].main, Queue(w, n, m)[0].updates)
    ensures E.Decodable(w.state.Keys, own, wire) && wire.transaction.senderId == n
    ensures E.Resolve(own, E.BareChains(w.state.Keys, wire), E.MainOf(wire)).Some?
  {
    var msg, nodes := Queue(w, n, m)[0], w.state.Keys;
    HeadCloses(w, n, m);
    ShipmentDecodable(nodes, own, CopiesOf(w, m), msg.updates, wire);
    var l := ReferenceResolves(nodes, own, CopiesOf(w, m), msg.updates, wire, msg.main);
  }

  lemma ViewCoversMain(w: World, n: NodeId, m: NodeId, own: E.Chains, msg: Message)
    requires m in w.state && Decodes(w, m, msg) && msg.main.sender == Some(n) && Spells(own, CopiesOf(w, m))
    ensures msg.main.block < |E.ChainOf(own, n)| || SenderViewIsValid(w, n, m, msg)
  {
    CopiesOfAt(w, m, n);
    assert |E.ChainOf(own, n)| == |Blocks(CopiesOf(w, m), n)|;
  }

  lemma WireDecodes(w: World, n: NodeId, m: NodeId, own: E.Chains, wire: E.ProofMessage)
    requires Inv(w) && m in w.state && Queue(w, n, m) != [] && MessageOk(w, n, m, 0)
    requires Spells(own, CopiesOf(w, m)) && wire.transaction.senderId == n
    requires E.IsProofMessage(wire, Queue(w, n, m)[0].main, Queue(w, n, m)[0].updates)
    requires E.Decodable(w.state.Keys, own, wire) && E.Resolve(own, E.BareChains(w.state.Keys, wire), E.MainOf(wire)).Some?
    ensures Decodes(w, m, Queue(w, n, m)[0])
  {
    var msg := Queue(w, n, m)[0];
    forall k | k in msg.updates
      ensures AttachesIn(w.state[m], msg.updates, k)
    {
      WireAttaches(w, n, m, own, wire, k);
    }
    CopiesOfAt(w, m, n);
    ResolvedIsInRange(w.state.Keys, own, CopiesOf(w, m), msg, wire, E.MainOf(wire));
    assert OwnChainOk(w, n) && CopyOk(w, m, n);
    RangeIsFound(w, n, m, msg, msg.main);
    AttachedIsConsistent(w, n, m, msg, n);
    forall k, i, t, x | k in msg.updates && 0 <= i < |msg.updates[k]| && t in msg.updates[k][i].transactions && x in t.source
      ensures FoundIn(w.state[m], msg.updates, x)
    {
      WireSourceFound(w, n, m, own, wire, k, i, t, x);
    }
  }

  lemma WireAttaches(w: World, n: NodeId, m: NodeId, own: E.Chains, wire: E.ProofMessage, k: NodeId)
    requires m in w.state && Queue(w, n, m) != [] && MessageOk(w, n, m, 0) && k in Queue(w, n, m)[0].updates
    requires Spells(own, CopiesOf(w, m)) && E.Decodable(w.state.Keys, own, wire)
    requires E.IsProofMessage(wire, Queue(w, n, m)[0].main, Queue(w, n, m)[0].updates)
    ensures AttachesIn(w.state[m], Queue(w, n, m)[0].updates, k)
  {
    var u := Queue(w, n, m)[0].updates[k];
    assert PieceOk(w, n, m, k, u);
    BareFields(w.state.Keys, wire.chainUpdates[k], u);
    assert E.Attaches(own, k, E.BareSegment(w.state.Keys, wire.chainUpdates[k]));
    CopiesOfAt(w, m, k);
    assert |E.ChainOf(own, k)| == |Blocks(CopiesOf(w, m), k)|;
  }

  lemma AttachedIsConsistent(w: World, n: NodeId, m: NodeId, msg: Message, k: NodeId)
    requires m in w.state && k in w.state && ChainsOk(w) && CopiesOk(w)
    requires k in msg.updates ==> PieceOk(w, n, m, k, msg.updates[k]) && AttachesIn(w.state[m], msg.updates, k)
    ensures Consistent(CopyIn(w.state[m], k).blocks, UpdateOf(msg.updates, k))
  {
    assert CopyOk(w, m, k) && OwnChainOk(w, k);
    var c, u := Copy(w, m, k).blocks, UpdateOf(msg.updates, k);
    if u != [] {
      assert SegmentOk(w, n, m, k, u, |c|);
      PieceIsConsistent(w, n, m, k, u);
    }
  }

  lemma PieceIsConsistent(w: World, n: NodeId, m: NodeId, k: NodeId, u: seq<Block>)
    requires OwnChainOk(w, k) && CopyOk(w, m, k) && SegmentOk(w, n, m, k, u, |Copy(w, m, k).blocks|)
    ensures Consistent(Copy(w, m, k).blocks, u)
  {
    SegmentNumbers(w, n, m, k, u, |Copy(w, m, k).blocks|);
    PrefixView(Own(w, k), Copy(w, m, k).blocks, u);
  }

  lemma WireSourceFound(w: World, n: NodeId, m: NodeId, own: E.Chains, wire: E.ProofMessage, k: NodeId, i: nat, t: Transaction, x: Transaction)
    requires Inv(w) && m in w.state && Queue(w, n, m) != [] && MessageOk(w, n, m, 0)
    requires Spells(own, CopiesOf(w, m)) && E.Decodable(w.state.Keys, own, wire)
    requires E.IsProofMessage(wire, Queue(w, n, m)[0].main, Queue(w, n, m)[0].updates)
    requires k in Queue(w, n, m)[0].updates && i < |Queue(w, n, m)[0].updates[k]|
    requires t in Queue(w, n, m)[0].updates[k][i].transactions && x in t.source
    ensures FoundIn(w.state[m], Queue(w, n, m)[0].updates, x)
  {
    var msg := Queue(w, n, m)[0];
    WireSourceResolves(w.state.Keys, own, msg, wire, k, i, t, x);
    ResolvedIsInRange(w.state.Keys, own, CopiesOf(w, m), msg, wire, E.SourceOf(x));
    CopiesOfAt(w, m, Home(x));
    PieceInChain(w, n, m, k, msg.updates[k], i, t);
    SourceInPlace(w, t, x);
    assert OwnChainOk(w, Home(x)) && CopyOk(w, m, Home(x));
    RangeIsFound(w, n, m, msg, x);
  }

  lemma WireSourceResolves(nodes: set<NodeId>, own: E.Chains, msg: Message, wire: E.ProofMessage, k: NodeId, i: nat, t: Transaction, x: Transaction)
    requires E.Decodable(nodes, own, wire) && E.IsProofMessage(wire, msg.main, msg.updates)
    requires k in msg.updates && i < |msg.updates[k]| && t in msg.updates[k][i].transactions && x in t.source
    ensures E.Resolve(own, E.BareChains(nodes, wire), E.SourceOf(x)).Some?
  {
    var u, bare := msg.updates[k], E.BareSegment(nodes, wire.chainUpdates[k]);
    BareFields(nodes, wire.chainUpdates[k], u);
    var j :| 0 <= j < |u[i].transactions| && u[i].transactions[j] == t;
    assert E.Resolvable(own, E.BareChains(nodes, wire), bare[i].transactions[j]);
    assert bare[i].transactions[j].message == E.MessageOf(t);
    assert E.SourceOf(x) in E.MessageOf(t).source;
  }

  lemma PieceInChain(w: World, n: NodeId, m: NodeId, k: NodeId, u: seq<Block>, i: nat, t: Transaction)
    requires ChainsOk(w) && PieceOk(w, n, m, k, u) && i < |u| && t in u[i].transactions && t.source != {}
    ensures InChain(w, t)
  {
    assert OwnChainOk(w, k);
    assert u[i] == Own(w, k)[u[0].number + i];
  }
}
