/** Proofs on the wire (`ProofMessage`, `BlockMessage`, `TransactionMessage`) and
    their decoding (the decoding constructor of `Proof`).

    A message names the sources of a transaction by chain, block and number.  The
    receiver turns them into pointers to transactions it has or has just decoded.
    Pointers are locations in a graph of records here; a location denotes a
    transaction when everything reachable from it spells that transaction out. */
module Encoding {
  import opened Ledger

  datatype Source = Source(owner: NodeId, block: nat, id: nat)

  datatype TransactionMessage = TransactionMessage(
    number: nat, senderId: int, receiverId: int, amount: nat, remainder: nat,
    source: set<Source>, blockNumber: nat)

  datatype BlockMessage = BlockMessage(
    number: nat, previousBlockNumber: int, ownerId: int, transactions: seq<TransactionMessage>)

  datatype ProofMessage = ProofMessage(
    transaction: TransactionMessage, chainUpdates: map<NodeId, seq<BlockMessage>>)

  const GENESIS_SENDER := -1

  // ---- encoding ----

  function SenderId(sender: Option<NodeId>): int {
    if sender.None? then GENESIS_SENDER else sender.value
  }

  function SourceOf(s: Transaction): Source {
    Source(Home(s), s.block, s.number)
  }

  function MessageOf(t: Transaction): TransactionMessage {
    TransactionMessage(t.number, SenderId(t.sender), t.receiver, t.amount, t.remainder,
                       set s | s in t.source :: SourceOf(s), t.block)
  }

  method EncodeTransaction(t: Transaction) returns (m: TransactionMessage)
    ensures m == MessageOf(t)
  {
    var sources: set<Source> := {};
    var todo := t.source;
    while todo != {}
      invariant todo <= t.source
      invariant forall x :: x in sources <==> exists s :: s in t.source && s !in todo && SourceOf(s) == x
      decreases todo
    {
      var s :| s in todo;
      todo := todo - {s};
      sources := sources + {if s.sender.None? then Source(s.receiver, s.block, s.number)
                            else Source(s.sender.value, s.block, s.number)};
    }
    m := TransactionMessage(t.number, if t.sender.None? then GENESIS_SENDER else t.sender.value,
                            t.receiver, t.amount, t.remainder, sources, t.block);
  }

  /** `m` is the message of block `b`. */
  ghost predicate IsBlockMessage(m: BlockMessage, b: Block) {
    && m.number == b.number && m.previousBlockNumber == b.number - 1 && m.ownerId == SenderId(b.owner)
    && |m.transactions| == |b.transactions|
    && forall i | 0 <= i < |b.transactions| :: m.transactions[i] == MessageOf(b.transactions[i])
  }

  method EncodeBlock(b: Block) returns (m: BlockMessage)
    ensures IsBlockMessage(m, b)
  {
    var transactions: seq<TransactionMessage> := [];
    for i := 0 to |b.transactions|
      invariant |transactions| == i
      invariant forall j | 0 <= j < i :: transactions[j] == MessageOf(b.transactions[j])
    {
      var t := EncodeTransaction(b.transactions[i]);
      transactions := transactions + [t];
    }
    m := BlockMessage(b.number, b.number - 1, if b.owner.None? then GENESIS_SENDER else b.owner.value, transactions);
  }

  ghost predicate AreBlockMessages(ms: seq<BlockMessage>, bs: seq<Block>) {
    |ms| == |bs| && forall i | 0 <= i < |bs| :: IsBlockMessage(ms[i], bs[i])
  }

  /** Segments without blocks are not sent at all. */
  ghost predicate IsProofMessage(m: ProofMessage, t: Transaction, updates: map<NodeId, seq<Block>>) {
    && m.transaction == MessageOf(t)
    && (forall k :: k in m.chainUpdates <==> k in updates && updates[k] != [])
    && forall k | k in m.chainUpdates :: AreBlockMessages(m.chainUpdates[k], updates[k])
  }

  method EncodeProof(t: Transaction, updates: map<NodeId, seq<Block>>) returns (m: ProofMessage)
    ensures IsProofMessage(m, t, updates)
  {
    var transaction := EncodeTransaction(t);
    var chainUpdates: map<NodeId, seq<BlockMessage>> := map[];
    var todo := updates.Keys;
    while todo != {}
      invariant todo <= updates.Keys
      invariant forall k :: k in chainUpdates <==> k in updates && k !in todo && updates[k] != []
      invariant forall k | k in chainUpdates :: AreBlockMessages(chainUpdates[k], updates[k])
      decreases todo
    {
      var node :| node in todo;
      todo := todo - {node};
      var blocks := updates[node];
      if |blocks| != 0 {
        var messages: seq<BlockMessage> := [];
        for i := 0 to |blocks|
          invariant |messages| == i
          invariant forall j | 0 <= j < i :: IsBlockMessage(messages[j], blocks[j])
        {
          var b := EncodeBlock(blocks[i]);
          messages := messages + [b];
        }
        chainUpdates := chainUpdates[node := messages];
      }
    }
    m := ProofMessage(transaction, chainUpdates);
  }

  // ---- the receiver's graph ----

  /** Where a transaction sits: in our copy of a chain, or in a decoded update. */
  datatype Location = Old(owner: NodeId, block: nat, index: nat) | New(owner: NodeId, block: nat, index: nat)

  datatype Record = Record(number: nat, sender: Option<NodeId>, receiver: Option<NodeId>, amount: nat, remainder: nat,
                           block: nat, message: TransactionMessage, source: set<Location>)

  datatype BlockRecord = BlockRecord(number: nat, owner: Option<NodeId>, previous: Option<Previous>, transactions: seq<Record>)

  /** A back pointer: into our copy or to another decoded block of the same chain. */
  datatype Previous = OldBlock(index: nat) | NewBlock(index: nat)

  type Chains = map<NodeId, seq<BlockRecord>>

  datatype Graph = Graph(own: Chains, updates: Chains)

  function ChainOf(c: Chains, k: NodeId): seq<BlockRecord> {
    if k in c then c[k] else []
  }

  function Lookup(g: Graph, l: Location): Option<Record> {
    var c := ChainOf(if l.Old? then g.own else g.updates, l.owner);
    if l.block < |c| && l.index < |c[l.block].transactions| then Some(c[l.block].transactions[l.index]) else None
  }

  ghost predicate SameFields(r: Record, t: Transaction) {
    && r.number == t.number && r.sender == t.sender && r.receiver == Some(t.receiver)
    && r.amount == t.amount && r.remainder == t.remainder && r.block == t.block
  }

  /** What is found at `l` spells out `t`, sources and all. */
  ghost predicate Denotes(g: Graph, l: Location, t: Transaction)
    decreases t, 1
  {
    var r := Lookup(g, l);
    && r.Some? && SameFields(r.value, t)
    && (forall s | s in t.source :: OneDenotes(g, r.value.source, s))
    && (forall m | m in r.value.source :: DenotesSourceOf(g, m, t))
  }

  ghost predicate OneDenotes(g: Graph, ms: set<Location>, s: Transaction)
    decreases s, 2
  {
    exists m :: m in ms && Denotes(g, m, s)
  }

  ghost predicate DenotesSourceOf(g: Graph, m: Location, t: Transaction)
    decreases t, 0
  {
    exists s :: s in t.source && Denotes(g, m, s)
  }

  // ---- decoding ----

  function NodeOf(nodes: set<NodeId>, id: int): Option<NodeId> {
    if id >= 0 && id in nodes then Some(id) else None
  }

  function WithoutSources(nodes: set<NodeId>, m: TransactionMessage, block: nat): Record {
    Record(m.number, NodeOf(nodes, m.senderId), NodeOf(nodes, m.receiverId), m.amount, m.remainder, block, m, {})
  }

  /** `Block.getTransaction`: the first transaction with that number. */
  function IndexOf(ts: seq<Record>, id: nat): Option<nat> {
    if ts == [] then None
    else if ts[0].number == id then Some(0)
    else match IndexOf(ts[1..], id) case None => None case Some(i) => Some(i + 1)
  }

  /** Where a source reference leads: through the light view of an updated chain, or
      straight into our copy.  None stands for the exceptions of the lookups. */
  function Resolve(own: Chains, shape: Chains, s: Source): Option<Location> {
    var c, u := ChainOf(own, s.owner), ChainOf(shape, s.owner);
    if s.block < |c| then
      match IndexOf(c[s.block].transactions, s.id)
      case None => None
      case Some(i) => Some(Old(s.owner, s.block, i))
    else if u == [] || s.block < u[0].number || s.block - u[0].number >= |u| then None
    else
      match IndexOf(u[s.block - u[0].number].transactions, s.id)
      case None => None
      case Some(i) => Some(New(s.owner, s.block - u[0].number, i))
  }

  /** A block decoded from its message: no back pointer yet, no sources. */
  function BareBlock(nodes: set<NodeId>, m: BlockMessage): BlockRecord {
    BlockRecord(m.number, NodeOf(nodes, m.ownerId), None,
                seq(|m.transactions|, i requires 0 <= i < |m.transactions| => WithoutSources(nodes, m.transactions[i], m.number)))
  }

  function BareSegment(nodes: set<NodeId>, ms: seq<BlockMessage>): seq<BlockRecord> {
    seq(|ms|, i requires 0 <= i < |ms| => BareBlock(nodes, ms[i]))
  }

  function BareChains(nodes: set<NodeId>, m: ProofMessage): Chains {
    map k | k in m.chainUpdates :: BareSegment(nodes, m.chainUpdates[k])
  }

  /** The reference to the main transaction. */
  function MainOf(m: ProofMessage): Source
    requires m.transaction.senderId >= 0
  {
    Source(m.transaction.senderId, m.transaction.blockNumber, m.transaction.number)
  }

  /** The main transaction, through the view of its sender's chain: in our copy if that reaches
      so far, else only if the view is valid. */
  function Main(nodes: set<NodeId>, own: Chains, m: ProofMessage, viewIsValid: bool): Option<Location> {
    if m.transaction.senderId < 0 then None
    else if m.transaction.blockNumber < |ChainOf(own, m.transaction.senderId)| || viewIsValid then
      Resolve(own, BareChains(nodes, m), MainOf(m))
    else None
  }

  // ---- what decoding has to achieve ----

  /** The blocks of a segment are linked, and its first block hangs on our copy. */
  function PreviousOf(bs: seq<BlockRecord>, i: nat): Option<Previous>
    requires i < |bs|
  {
    if i > 0 then Some(NewBlock(i - 1))
    else if bs[0].number > 0 then Some(OldBlock(bs[0].number - 1)) else None
  }

  ghost predicate Linked(bs: seq<BlockRecord>) {
    forall i | 0 <= i < |bs| :: bs[i].previous == PreviousOf(bs, i)
  }

  /** We have the block before the segment. */
  predicate Attaches(own: Chains, k: NodeId, bs: seq<BlockRecord>) {
    bs != [] ==> bs[0].number <= |ChainOf(own, k)|
  }

  ghost predicate Resolvable(own: Chains, shape: Chains, bare: Record) {
    forall s | s in bare.message.source :: Resolve(own, shape, s).Some?
  }

  ghost predicate SegmentResolvable(own: Chains, shape: Chains, bare: seq<BlockRecord>) {
    forall i, j | 0 <= i < |bare| && 0 <= j < |bare[i].transactions| :: Resolvable(own, shape, bare[i].transactions[j])
  }

  /** The sources of `r` are what the references of its message lead to, and nothing else differs. */
  ghost predicate SourcesFixed(own: Chains, shape: Chains, bare: Record, r: Record) {
    && r == bare.(source := r.source)
    && Resolvable(own, shape, bare)
    && (forall s | s in bare.message.source :: Resolve(own, shape, s).value in r.source)
    && (forall l | l in r.source :: exists s :: s in bare.message.source && Resolve(own, shape, s) == Some(l))
  }

  ghost predicate BlockFixed(own: Chains, shape: Chains, bare: BlockRecord, b: BlockRecord) {
    && b.number == bare.number && b.owner == bare.owner && |b.transactions| == |bare.transactions|
    && forall i | 0 <= i < |b.transactions| :: SourcesFixed(own, shape, bare.transactions[i], b.transactions[i])
  }

  ghost predicate SegmentFixed(own: Chains, shape: Chains, bare: seq<BlockRecord>, bs: seq<BlockRecord>) {
    |bs| == |bare| && forall i | 0 <= i < |bs| :: BlockFixed(own, shape, bare[i], bs[i])
  }

  /** `updates` are the chain updates of `m`, decoded against our copies. */
  ghost predicate Decoded(nodes: set<NodeId>, own: Chains, m: ProofMessage, updates: Chains) {
    && (forall k :: k in updates <==> k in m.chainUpdates)
    && forall k | k in updates ::
         Linked(updates[k]) && SegmentFixed(own, BareChains(nodes, m), BareSegment(nodes, m.chainUpdates[k]), updates[k])
  }

  /** The exceptions of the decoder: a segment past the end of our copy, or a reference that leads nowhere. */
  ghost predicate Decodable(nodes: set<NodeId>, own: Chains, m: ProofMessage) {
    forall k | k in m.chainUpdates ::
      && Attaches(own, k, BareSegment(nodes, m.chainUpdates[k]))
      && SegmentResolvable(own, BareChains(nodes, m), BareSegment(nodes, m.chainUpdates[k]))
  }

  // ---- lookups do not mind links and sources ----

  ghost predicate SameNumbers(a: seq<Record>, b: seq<Record>) {
    |a| == |b| && forall i | 0 <= i < |a| :: a[i].number == b[i].number
  }

  ghost predicate SameShape(a: seq<BlockRecord>, b: seq<BlockRecord>) {
    |a| == |b| && forall i | 0 <= i < |a| :: a[i].number == b[i].number && SameNumbers(a[i].transactions, b[i].transactions)
  }

  lemma {:induction false} IndexIgnoresRest(a: seq<Record>, b: seq<Record>, id: nat)
    requires SameNumbers(a, b)
    ensures IndexOf(a, id) == IndexOf(b, id)
    decreases |a|
  {
    if a != [] {
      IndexIgnoresRest(a[1..], b[1..], id);
    }
  }

  lemma ResolveIgnoresRest(own: Chains, a: Chains, b: Chains, s: Source)
    requires SameShape(ChainOf(a, s.owner), ChainOf(b, s.owner))
    ensures Resolve(own, a, s) == Resolve(own, b, s)
  {
    var c, u, v := ChainOf(own, s.owner), ChainOf(a, s.owner), ChainOf(b, s.owner);
    if s.block >= |c| && u != [] && 0 <= s.block - u[0].number < |u| {
      IndexIgnoresRest(u[s.block - u[0].number].transactions, v[s.block - u[0].number].transactions, s.id);
    }
  }

  class Decoder {
    const nodes: set<NodeId>
    const own: Chains
    var updates: Chains

    constructor (nodes: set<NodeId>, own: Chains)
      ensures this.nodes == nodes && this.own == own && updates == map[]
    {
      this.nodes, this.own, this.updates := nodes, own, map[];
    }

    /** Decodes a whole message.  The main transaction is looked up through the view of its
        sender's chain, where `viewIsValid` is what the integrity check of that view finds; on a
        valid view of blocks that attach, it finds what the light view finds (`AttachedViewsPredict`). */
    method Decode(m: ProofMessage, viewIsValid: bool) returns (main: Option<Location>)
      modifies this
      ensures main == if Decodable(nodes, own, m) then Main(nodes, own, m, viewIsValid) else None
      ensures Decodable(nodes, own, m) ==> Decoded(nodes, own, m, updates)
    {
      ghost var bare := BareChains(nodes, m);
      assert forall k | k in m.chainUpdates :: k in bare && bare[k] == BareSegment(nodes, m.chainUpdates[k]);
      DecodeBlocks(m);
      var attached := FixPreviousBlockPointers();
      if !attached {
        return None;
      }
      var fixed := FixTransactionSources(bare);
      if !fixed {
        return None;
      }
      assert Decodable(nodes, own, m);
      if m.transaction.senderId < 0 {
        return None;
      }
      if m.transaction.blockNumber >= |ChainOf(own, m.transaction.senderId)| && !viewIsValid {
        return None;
      }
      main := Resolve(own, updates, MainOf(m));
      ResolveIgnoresRest(own, updates, bare, MainOf(m));
    }

    /** Step 1: all transactions, without sources. */
    method DecodeBlocks(m: ProofMessage)
      modifies this
      ensures updates == BareChains(nodes, m)
    {
      var decoded: Chains := map[];
      var todo := m.chainUpdates.Keys;
      while todo != {}
        invariant todo <= m.chainUpdates.Keys
        invariant forall k :: k in decoded <==> k in m.chainUpdates && k !in todo
        invariant forall k | k in decoded :: decoded[k] == BareSegment(nodes, m.chainUpdates[k])
        decreases todo
      {
        var node :| node in todo;
        todo := todo - {node};
        var blocks := DecodeSegment(m.chainUpdates[node]);
        decoded := decoded[node := blocks];
      }
      updates := decoded;
    }

    method DecodeSegment(messages: seq<BlockMessage>) returns (blocks: seq<BlockRecord>)
      ensures blocks == BareSegment(nodes, messages)
    {
      blocks := [];
      for i := 0 to |messages|
        invariant |blocks| == i
        invariant forall j | 0 <= j < i :: blocks[j] == BareBlock(nodes, messages[j])
      {
        var b := ToBlockWithoutSources(messages[i]);
        blocks := blocks + [b];
      }
    }

    method ToBlockWithoutSources(m: BlockMessage) returns (b: BlockRecord)
      ensures b == BareBlock(nodes, m)
    {
      var transactions: seq<Record> := [];
      for i := 0 to |m.transactions|
        invariant |transactions| == i
        invariant forall j | 0 <= j < i :: transactions[j] == WithoutSources(nodes, m.transactions[j], m.number)
      {
        transactions := transactions + [WithoutSources(nodes, m.transactions[i], m.number)];
      }
      b := BlockRecord(m.number, NodeOf(nodes, m.ownerId), None, transactions);
    }

    /** Step 2: the back pointers.  It fails when we miss the block before a segment. */
    method FixPreviousBlockPointers() returns (ok: bool)
      modifies this
      ensures ok <==> forall k | k in old(updates) :: Attaches(own, k, old(updates)[k])
      ensures ok ==> forall k :: k in updates <==> k in old(updates)
      ensures ok ==> forall k | k in updates :: RelinkedFrom(old(updates)[k], updates[k])
    {
      var linked: Chains := map[];
      var todo := updates.Keys;
      while todo != {}
        invariant todo <= updates.Keys && updates == old(updates)
        invariant forall k :: k in linked <==> k in updates && k !in todo
        invariant forall k | k in linked :: RelinkedFrom(updates[k], linked[k]) && Attaches(own, k, updates[k])
        decreases todo
      {
        var node :| node in todo;
        todo := todo - {node};
        var blocks := updates[node];
        if |blocks| != 0 {
          if blocks[0].number > |ChainOf(own, node)| {
            return false;
          }
          blocks := Link(blocks);
        }
        linked := linked[node := blocks];
      }
      updates := linked;
      return true;
    }

    /** The same blocks, linked. */
    static ghost predicate RelinkedFrom(bare: seq<BlockRecord>, bs: seq<BlockRecord>) {
      |bs| == |bare| && forall i | 0 <= i < |bs| :: bs[i] == bare[i].(previous := PreviousOf(bare, i))
    }

    method Link(given: seq<BlockRecord>) returns (blocks: seq<BlockRecord>)
      requires given != []
      ensures RelinkedFrom(given, blocks)
    {
      blocks := given;
      var previous: Option<Previous> := None;
      for i := 0 to |blocks|
        invariant |blocks| == |given|
        invariant previous == if i == 0 then None else Some(NewBlock(i - 1))
        invariant forall j | 0 <= j < |given| :: blocks[j] ==
                    if j >= i then given[j] else given[j].(previous := if j == 0 then None else Some(NewBlock(j - 1)))
      {
        blocks := blocks[i := blocks[i].(previous := previous)];
        previous := Some(NewBlock(i));
      }
      if blocks[0].number != 0 {
        blocks := blocks[0 := blocks[0].(previous := Some(OldBlock(blocks[0].number - 1)))];
      }
    }

    /** Step 3: the sources of all transactions of all nodes. */
    method FixTransactionSources(ghost bare: Chains) returns (ok: bool)
      requires forall k :: k in updates <==> k in bare
      requires forall k | k in bare :: RelinkedFrom(bare[k], updates[k]) && WithoutAny(bare[k])
      modifies this
      ensures ok <==> forall k | k in bare :: SegmentResolvable(own, bare, bare[k])
      ensures ok ==> forall k :: k in updates <==> k in bare
      ensures ok ==> forall k | k in bare :: Linked(updates[k]) && SegmentFixed(own, bare, bare[k], updates[k])
    {
      var fixed: Chains := map[];
      var todo := updates.Keys;
      while todo != {}
        invariant todo <= updates.Keys && updates == old(updates)
        invariant forall k :: k in fixed <==> k in updates && k !in todo
        invariant forall k | k in fixed :: SegmentResolvable(own, bare, bare[k])
        invariant forall k | k in fixed :: Linked(fixed[k]) && SegmentFixed(own, bare, bare[k], fixed[k])
        decreases todo
      {
        var node :| node in todo;
        todo := todo - {node};
        var segment := FixSegment(updates[node], bare, bare[node]);
        if segment.None? {
          return false;
        }
        fixed := fixed[node := segment.value];
      }
      updates := fixed;
      return true;
    }

    static ghost predicate WithoutAny(bs: seq<BlockRecord>) {
      forall i, j | 0 <= i < |bs| && 0 <= j < |bs[i].transactions| :: bs[i].transactions[j].source == {}
    }

    ghost predicate ShapedLike(bare: Chains)
      reads this
    {
      forall k :: SameShape(ChainOf(updates, k), ChainOf(bare, k))
    }

    method FixSegment(given: seq<BlockRecord>, ghost bare: Chains, ghost segment: seq<BlockRecord>) returns (r: Option<seq<BlockRecord>>)
      requires ShapedLike(bare) && RelinkedFrom(segment, given) && WithoutAny(segment)
      ensures r.Some? <==> SegmentResolvable(own, bare, segment)
      ensures r.Some? ==> Linked(r.value) && SegmentFixed(own, bare, segment, r.value)
    {
      var blocks: seq<BlockRecord> := [];
      for i := 0 to |given|
        invariant |blocks| == i
        invariant forall j | 0 <= j < i :: BlockFixed(own, bare, segment[j], blocks[j]) && blocks[j].previous == given[j].previous
        invariant forall j, l | 0 <= j < i && 0 <= l < |segment[j].transactions| :: Resolvable(own, bare, segment[j].transactions[l])
      {
        var transactions := FixBlock(given[i].transactions, bare);
        if transactions.None? {
          return None;
        }
        blocks := blocks + [given[i].(transactions := transactions.value)];
      }
      return Some(blocks);
    }

    method FixBlock(given: seq<Record>, ghost bare: Chains) returns (r: Option<seq<Record>>)
      requires ShapedLike(bare) && forall i | 0 <= i < |given| :: given[i].source == {}
      ensures r.Some? <==> forall i | 0 <= i < |given| :: Resolvable(own, bare, given[i])
      ensures r.Some? ==> |r.value| == |given| && forall i | 0 <= i < |given| :: SourcesFixed(own, bare, given[i], r.value[i])
    {
      var transactions: seq<Record> := [];
      for i := 0 to |given|
        invariant |transactions| == i
        invariant forall j | 0 <= j < i :: SourcesFixed(own, bare, given[j], transactions[j])
      {
        var t := FixSources(given[i], bare);
        if t.None? {
          return None;
        }
        transactions := transactions + [t.value];
      }
      return Some(transactions);
    }

    method FixSources(given: Record, ghost bare: Chains) returns (r: Option<Record>)
      requires ShapedLike(bare) && given.source == {}
      ensures r.Some? <==> Resolvable(own, bare, given)
      ensures r.Some? ==> SourcesFixed(own, bare, given, r.value)
    {
      var source: set<Location> := {};
      var todo := given.message.source;
      while todo != {}
        invariant todo <= given.message.source
        invariant forall s | s in given.message.source && s !in todo ::
                    Resolve(own, bare, s).Some? && Resolve(own, bare, s).value in source
        invariant forall l | l in source :: exists s :: s in given.message.source && Resolve(own, bare, s) == Some(l)
        decreases todo
      {
        var s :| s in todo;
        todo := todo - {s};
        var l := Resolve(own, updates, s);
        ResolveIgnoresRest(own, updates, bare, s);
        if l.None? {
          return None;
        }
        source := source + {l.value};
      }
      return Some(given.(source := source));
    }
  }
}
