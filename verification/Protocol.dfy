/** The nodes together: every interleaving of creating, committing, sending and
    receiving, over channels that keep their order.

    Each action is one atomic step of the source.  An action that the source picks
    by an algorithm (the sources of a transaction, the proof for a message) may be
    any result that the algorithm's own module allows. */
module Protocol {
  import opened Ledger
  import opened ChainReach
  import opened Replicas
  import opened ChainReplication
  import opened ChainViews
  import opened Validation
  import PC = ProofConstruction
  import PV = ProofVerification

  datatype NodeState = NodeState(
    copies: map<NodeId, Replica>,     // all chains as this node has them, its own included
    known: map<NodeId, Knowledge>,    // what it believes its peers hold
    alreadySent: nat,
    transactionId: nat,
    unspent: set<Transaction>,
    received: set<Transaction>,
    cache: set<Block>)                // blocks whose abstracts it has seen on the main chain

  datatype Message = Message(main: Transaction, updates: PC.Family)

  datatype World = World(
    state: map<NodeId, NodeState>,
    channel: map<(NodeId, NodeId), seq<Message>>,
    mainChain: set<Block>,
    genesis: Block)

  datatype Action =
    | Create(node: NodeId, receiver: NodeId, amount: nat, sources: set<Transaction>)
    | AppendEmpty(node: NodeId)
    | Commit(node: NodeId, reaches: bool)   // whether the abstract gets onto the main chain
    | Learn(node: NodeId, block: Block)
    | Recognise(node: NodeId, chain: NodeId, number: nat)   // `isOnMainChain` finds a block in the cache
    | SendNext(node: NodeId, updates: PC.Family)
    | SendFails(node: NodeId)         // the socket gave up: the block still counts as sent
    | Receive(from: NodeId, to: NodeId)

  // ---- reading a world ----

  function Copy(w: World, n: NodeId, k: NodeId): Replica {
    if n in w.state && k in w.state[n].copies then w.state[n].copies[k] else Replica([], [])
  }

  /** The chain of `k` as its owner has it. */
  function Own(w: World, k: NodeId): seq<Block> {
    Copy(w, k, k).blocks
  }

  function Known(w: World, n: NodeId, peer: NodeId): Knowledge {
    if n in w.state && peer in w.state[n].known then w.state[n].known[peer] else map[]
  }

  function Queue(w: World, from: NodeId, to: NodeId): seq<Message> {
    if (from, to) in w.channel then w.channel[(from, to)] else []
  }

  function Sent(w: World, n: NodeId): nat {
    if n in w.state then w.state[n].alreadySent else 0
  }

  function Received(w: World, n: NodeId): set<Transaction> {
    if n in w.state then w.state[n].received else {}
  }

  function Unspent(w: World, n: NodeId): set<Transaction> {
    if n in w.state then w.state[n].unspent else {}
  }

  /** `t` is in the block of its sender's chain that it names. */
  predicate InChain(w: World, t: Transaction) {
    && t.sender.Some? && t.sender.value in w.state
    && 1 <= t.block < |Own(w, t.sender.value)|
    && t in Own(w, t.sender.value)[t.block].transactions
  }

  function SettingOf(w: World, n: NodeId, receiver: NodeId): PC.Setting
    requires n in w.state
  {
    PC.Setting(n, receiver, Known(w, n, receiver), w.state[n].copies, w.state.Keys)
  }

  // ---- what a receiver sees ----

  function CopyIn(s: NodeState, k: NodeId): Replica {
    if k in s.copies then s.copies[k] else Replica([], [])
  }

  function KnownIn(s: NodeState, peer: NodeId): Knowledge {
    if peer in s.known then s.known[peer] else map[]
  }

  function UpdateOf(updates: PC.Family, k: NodeId): seq<Block> {
    if k in updates then updates[k] else []
  }

  /** A chain as the view of a received proof shows it. */
  function ShowsIn(s: NodeState, k: NodeId, updates: PC.Family): PV.Shown {
    var c, u := CopyIn(s, k), UpdateOf(updates, k);
    var valid := Consistent(c.blocks, u);
    var blocks := if valid then c.blocks + From(u, Overlap(c.blocks, u)) else c.blocks;
    PV.Shown(valid, blocks, seq(|blocks|, i requires 0 <= i < |blocks| => MarkedIn(s, c, blocks, i)))
  }

  /** Block `i` has a next committed block here, or is on the main chain as far as we know. */
  predicate MarkedIn(s: NodeState, c: Replica, blocks: seq<Block>, i: nat)
    requires i < |blocks|
  {
    || blocks[i].number == 0
    || (i < |c.next| && c.next[i] >= 0)
    || blocks[i] in s.cache
  }

  function EvidenceIn(s: NodeState, nodes: set<NodeId>, updates: PC.Family): PV.Evidence {
    map k | k in nodes :: ShowsIn(s, k, updates)
  }

  function ViewsIn(s: NodeState, nodes: set<NodeId>, updates: PC.Family): Views {
    ViewsShown(EvidenceIn(s, nodes, updates))
  }

  lemma EvidenceWellFormed(s: NodeState, nodes: set<NodeId>, updates: PC.Family)
    ensures PV.WellFormed(EvidenceIn(s, nodes, updates))
  {
  }

  /** A reference to `t` leads to it: in our copy if that reaches so far, else in the update. */
  predicate FoundIn(s: NodeState, updates: PC.Family, t: Transaction) {
    var c, u := CopyIn(s, Home(t)).blocks, UpdateOf(updates, Home(t));
    if t.block < |c| then t in c[t.block].transactions
    else u != [] && u[0].number <= t.block < u[0].number + |u| && t in u[t.block - u[0].number].transactions
  }

  predicate AttachesIn(s: NodeState, updates: PC.Family, k: NodeId) {
    UpdateOf(updates, k) != [] ==> UpdateOf(updates, k)[0].number <= |CopyIn(s, k).blocks|
  }

  /** The decoder gets through: every segment attaches to our copy, every source is found, and
      so is the main transaction, for which the view has to be valid where it is new. */
  predicate DecodesIn(s: NodeState, msg: Message) {
    && (forall k | k in msg.updates :: AttachesIn(s, msg.updates, k))
    && (forall k | k in msg.updates ::
          forall i | 0 <= i < |msg.updates[k]| ::
            forall t | t in msg.updates[k][i].transactions ::
              forall x | x in t.source :: FoundIn(s, msg.updates, x))
    && msg.main.sender.Some? && FoundIn(s, msg.updates, msg.main)
    && var c := CopyIn(s, msg.main.sender.value).blocks;
       msg.main.block < |c| || Consistent(c, UpdateOf(msg.updates, msg.main.sender.value))
  }

  /** The decision of `receiveTransaction` on a decoded message. */
  ghost predicate AcceptedIn(s: NodeState, nodes: set<NodeId>, own: NodeId, msg: Message) {
    EvidenceWellFormed(s, nodes, msg.updates);
    && msg.main.receiver == own
    && msg.main !in s.received
    && msg.main.sender.Some?
    && PV.Verifies(EvidenceIn(s, nodes, msg.updates), msg.main)
    && Accepts(ViewsIn(s, nodes, msg.updates), msg.main)
  }

  function Shows(w: World, n: NodeId, k: NodeId, updates: PC.Family): PV.Shown
    requires n in w.state
  {
    ShowsIn(w.state[n], k, updates)
  }

  function EvidenceOf(w: World, n: NodeId, updates: PC.Family): PV.Evidence
    requires n in w.state
  {
    EvidenceIn(w.state[n], w.state.Keys, updates)
  }

  function ViewsOf(w: World, n: NodeId, updates: PC.Family): Views
    requires n in w.state
  {
    ViewsIn(w.state[n], w.state.Keys, updates)
  }

  predicate Marked(w: World, n: NodeId, c: Replica, blocks: seq<Block>, i: nat)
    requires n in w.state && i < |blocks|
  {
    MarkedIn(w.state[n], c, blocks, i)
  }

  predicate Decodes(w: World, n: NodeId, msg: Message)
    requires n in w.state
  {
    DecodesIn(w.state[n], msg)
  }

  /** A message counts for its receiver when it decodes and is found valid. */
  ghost predicate Accepted(w: World, n: NodeId, msg: Message)
    requires n in w.state
  {
    Decodes(w, n, msg) && AcceptedIn(w.state[n], w.state.Keys, n, msg)
  }

  /** A copy after `Chain.update`. */
  function Updated(c: Replica, updates: seq<Block>, cached: set<Block>): Replica {
    if updates == [] then c
    else
      var added, last := ChainReplication.Accepted(updates, |c.blocks|), updates[|updates| - 1].number;
      Replica(c.blocks + added, c.next + Pointers(Marks(added, last, cached), |c.blocks|))
  }

  // ---- the steps ----

  /** A proof is in time when the receiver has seen the abstract that ends each segment. */
  predicate Timely(w: World, n: NodeId, updates: PC.Family) {
    forall k | k in updates :: n in w.state && updates[k] != [] && updates[k][|updates[k]| - 1] in w.state[n].cache
  }

  /** The next block has a next committed block, which we have seen on the main chain. */
  predicate MaySend(w: World, n: NodeId) {
    && n in w.state
    && var b := Sent(w, n) + 1;
       && b < |Own(w, n)| == |Copy(w, n, n).next|
       && 0 <= Copy(w, n, n).next[b] < |Own(w, n)|
       && Own(w, n)[Copy(w, n, n).next[b]] in w.state[n].cache
  }

  ghost predicate Enabled(w: World, a: Action) {
    match a
    case Create(n, r, amount, sources) =>
      && n in w.state && r in w.state && r != n
      && sources != {} && sources <= Unspent(w, n)
      && Sum(sources, ContributionOf(n)) >= amount
    case AppendEmpty(n) => n in w.state
    case Commit(n, _) =>
      && n in w.state && Own(w, n) != [] && |Own(w, n)| == |Copy(w, n, n).next|
      && Copy(w, n, n).next[|Own(w, n)| - 1] == -1
    case Learn(n, block) => n in w.state && block in w.mainChain
    case Recognise(n, k, b) =>
      && n in w.state && b < |Copy(w, n, k).blocks| == |Copy(w, n, k).next|
      && Copy(w, n, k).blocks[b] in w.state[n].cache
    case SendNext(n, updates) =>
      && MaySend(w, n)
      && var b := Sent(w, n) + 1;
         var ts := Own(w, n)[b].transactions;
         if ts == [] then updates == map[]
         else PC.IsProof(SettingOf(w, n, ts[0].receiver), b, updates)
    case SendFails(n) => MaySend(w, n)
    case Receive(from, to) => to in w.state && Queue(w, from, to) != []
  }

  function SetState(w: World, n: NodeId, s: NodeState): World {
    w.(state := w.state[n := s])
  }

  function SetOwn(s: NodeState, n: NodeId, c: Replica): NodeState {
    s.(copies := s.copies[n := c])
  }

  ghost function NewTransaction(w: World, n: NodeId, r: NodeId, amount: nat, sources: set<Transaction>): Transaction
    requires n in w.state && Sum(sources, ContributionOf(n)) >= amount
  {
    Transaction(w.state[n].transactionId, Some(n), r, amount, Sum(sources, ContributionOf(n)) - amount,
                |Own(w, n)|, sources)
  }

  function Appended(w: World, n: NodeId, ts: seq<Transaction>): Replica {
    Replica(Own(w, n) + [Block(|Own(w, n)|, Some(n), ts)], Copy(w, n, n).next + [-1])
  }

  ghost function AfterCreate(w: World, n: NodeId, r: NodeId, amount: nat, sources: set<Transaction>): World
    requires Enabled(w, Create(n, r, amount, sources))
  {
    var s, t := w.state[n], NewTransaction(w, n, r, amount, sources);
    SetState(w, n, SetOwn(s, n, Appended(w, n, [t])).(
      transactionId := s.transactionId + 1,
      unspent := s.unspent - sources + if t.remainder > 0 then {t} else {}))
  }

  /** The pointers are set whether or not the abstract gets onto the main chain. */
  ghost function AfterCommit(w: World, n: NodeId, reaches: bool): World
    requires Enabled(w, Commit(n, reaches))
  {
    var c := Copy(w, n, n);
    SetState(w, n, SetOwn(w.state[n], n, c.(next := CommitNext(c.next, |c.blocks| - 1)))).(
      mainChain := w.mainChain + if reaches then {c.blocks[|c.blocks| - 1]} else {})
  }

  /** A block found in the cache becomes its own next committed block. */
  ghost function AfterRecognise(w: World, n: NodeId, k: NodeId, b: nat): World
    requires Enabled(w, Recognise(n, k, b))
  {
    var c := Copy(w, n, k);
    SetState(w, n, SetOwn(w.state[n], k, c.(next := c.next[b := b])))
  }

  /** Knowledge of one peer after a proof went to or came from it. */
  function LearnFrom(before: Knowledge, peer: NodeId, updates: PC.Family): Knowledge {
    map k | k in before.Keys + updates.Keys && Learned(before, peer, updates, k) >= 0 :: Learned(before, peer, updates, k)
  }

  /** The sent mark of `n` moves on by one. */
  function Passed(w: World, n: NodeId): World
    requires n in w.state
  {
    SetState(w, n, w.state[n].(alreadySent := Sent(w, n) + 1))
  }

  /** The sender of a message takes its receiver to know it. */
  function Informed(s: NodeState, r: NodeId, msg: Message): NodeState {
    s.(known := s.known[r := LearnFrom(KnownIn(s, r), r, msg.updates)])
  }

  function Post(w: World, n: NodeId, r: NodeId, msg: Message): World
    requires n in w.state
  {
    SetState(w, n, Informed(w.state[n], r, msg)).(channel := w.channel[(n, r) := Queue(w, n, r) + [msg]])
  }

  function AfterSend(w: World, n: NodeId, updates: PC.Family): World
    requires MaySend(w, n)
  {
    Shipped(Passed(w, n), n, Own(w, n)[Sent(w, n) + 1].transactions, updates)
  }

  /** The transaction of a block goes out; most blocks of a committed chain are empty. */
  function Shipped(p: World, n: NodeId, ts: seq<Transaction>, updates: PC.Family): World
    requires n in p.state
  {
    if ts == [] then p else Post(p, n, ts[0].receiver, Message(ts[0], updates))
  }

  function Take(w: World, from: NodeId, to: NodeId): World
    requires Queue(w, from, to) != []
  {
    w.(channel := w.channel[(from, to) := Queue(w, from, to)[1..]])
  }

  /** `Proof.applyUpdates`: all chains, and what the sender of the message knows. */
  function Applied(s: NodeState, sender: NodeId, updates: PC.Family): NodeState {
    s.(copies := map k | k in s.copies.Keys + updates.Keys :: Updated(CopyIn(s, k), UpdateOf(updates, k), s.cache),
       known := s.known[sender := LearnFrom(KnownIn(s, sender), sender, updates)])
  }

  /** An accepted message: chains and knowledge are updated, the transaction can be spent. */
  function Absorbed(s: NodeState, msg: Message): NodeState
    requires msg.main.sender.Some?
  {
    Applied(s, msg.main.sender.value, msg.updates).(
      unspent := s.unspent + if msg.main.amount > 0 then {msg.main} else {},
      received := s.received + {msg.main})
  }

  /** A refused message: if it was meant for us, we will not look at it again. */
  function Refused(s: NodeState, own: NodeId, msg: Message): NodeState {
    s.(received := s.received + if msg.main.receiver == own then {msg.main} else {})
  }

  function Absorb(w: World, to: NodeId, msg: Message): World
    requires to in w.state && msg.main.sender.Some?
  {
    SetState(w, to, Absorbed(w.state[to], msg))
  }

  function Refuse(w: World, to: NodeId, msg: Message): World
    requires to in w.state
  {
    SetState(w, to, Refused(w.state[to], to, msg))
  }

  /** The next message of a channel is handled.  One that does not decode is dropped without a trace. */
  ghost function AfterReceive(w: World, from: NodeId, to: NodeId): World
    requires Enabled(w, Receive(from, to))
  {
    var p, msg := Take(w, from, to), Queue(w, from, to)[0];
    if !Decodes(w, to, msg) then p
    else if Accepted(w, to, msg) then Absorb(p, to, msg)
    else Refuse(p, to, msg)
  }

  ghost function Apply(w: World, a: Action): World
    requires Enabled(w, a)
  {
    match a
    case Create(n, r, amount, sources) => AfterCreate(w, n, r, amount, sources)
    case AppendEmpty(n) => SetState(w, n, SetOwn(w.state[n], n, Appended(w, n, [])))
    case Commit(n, reaches) => AfterCommit(w, n, reaches)
    case Learn(n, block) => SetState(w, n, w.state[n].(cache := w.state[n].cache + {block}))
    case Recognise(n, k, b) => AfterRecognise(w, n, k, b)
    case SendNext(n, updates) => AfterSend(w, n, updates)
    case SendFails(n) => Passed(w, n)
    case Receive(from, to) => AfterReceive(w, from, to)
  }

  /** Every node has the genesis block, which is on the main chain, and nothing else. */
  ghost predicate Init(w: World) {
    && GenesisBlockOk(w.genesis) && w.mainChain == {w.genesis} && w.channel == map[]
    && forall n | n in w.state ::
         && w.state[n].copies == map[n := Replica([w.genesis], [0])]
         && w.state[n].known == map[] && w.state[n].alreadySent == 0 && w.state[n].received == {}
         && w.state[n].cache <= w.mainChain
         && forall t | t in w.state[n].unspent :: t in w.genesis.transactions && t.receiver == n
  }

  ghost predicate GenesisBlockOk(g: Block) {
    && g.number == 0
    && forall t | t in g.transactions :: t.sender.None? && GenesisOk(t)
  }
}
