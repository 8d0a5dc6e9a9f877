/** What every step of the protocol keeps. */
module ProtocolInvariant {
  import opened Ledger
  import opened ChainReach
  import opened Replicas
  import opened ChainReplication
  import opened ChainViews
  import opened Validation
  import opened Protocol
  import PC = ProofConstruction
  import PV = ProofVerification

  // ---- own chains ----

  /** Chains start with genesis, are numbered, and hold their owner's transactions, one a block. */
  ghost predicate OwnChainOk(w: World, k: NodeId) {
    var c := Own(w, k);
    && c != [] && c[0] == w.genesis && Numbered(c)
    && forall b, t | 1 <= b < |c| && t in c[b].transactions ::
         t.sender == Some(k) && t.block == b && c[b].transactions == [t]
  }

  ghost predicate ChainsOk(w: World) {
    && GenesisBlockOk(w.genesis)
    && forall k | k in w.state :: OwnChainOk(w, k)
  }

  // ---- copies ----

  /** A copy is a prefix of the chain.  On a foreign copy every pointer is set, on our own
      that of every sent block; those lead to blocks on the main chain. */
  ghost predicate CopyOk(w: World, n: NodeId, k: NodeId) {
    var c := Copy(w, n, k);
    && c.blocks <= Own(w, k) && |c.next| == |c.blocks|
    && (forall i | 0 <= i < |c.next| && c.next[i] != -1 :: i <= c.next[i] < |c.blocks|)
    && (forall i | 0 <= i < |c.next| && (n != k || i <= Sent(w, n)) ::
          c.next[i] != -1 && Own(w, k)[c.next[i]] in w.mainChain)
    && (n == k ==> Sent(w, n) < |c.blocks|)
  }

  ghost predicate CopiesOk(w: World) {
    && (forall n, k | n in w.state && k in w.state :: CopyOk(w, n, k))
    && (forall n, k | n in w.state && k in w.state[n].copies :: k in w.state)
    && (forall n | n in w.state :: w.state[n].cache <= w.mainChain)
  }

  // ---- transactions ----

  /** `s` may be a source of `k`: its genesis transaction, a transaction of its own, or
      one it received, whose block it has. */
  ghost predicate Spendable(w: World, k: NodeId, s: Transaction) {
    if s.sender.None? then s in w.genesis.transactions && s.receiver == k
    else
      && InChain(w, s)
      && (s.sender != Some(k) ==>
            && s.receiver == k && s in Received(w, k)
            && s.block <= Sent(w, s.sender.value) && s.block < |Copy(w, k, s.sender.value).blocks|)
  }

  ghost predicate TransactionOk(w: World, t: Transaction)
    requires t.sender.Some?
  {
    && t.receiver in w.state && t.receiver != t.sender.value && MoneyOk(t)
    && forall s | s in t.source :: Spendable(w, t.sender.value, s) && (s.sender == t.sender ==> s.block < t.block)
  }

  ghost predicate TransactionsOk(w: World) {
    forall t | InChain(w, t) :: TransactionOk(w, t)
  }

  /** The sources of two transactions of one chain are disjoint. */
  ghost predicate SpentOnce(w: World) {
    forall t, u | InChain(w, t) && InChain(w, u) && t.sender == u.sender && t != u :: t.source !! u.source
  }

  ghost predicate UnspentOk(w: World) {
    forall k: NodeId, s | s in Unspent(w, k) ::
      Spendable(w, k, s) && forall t | InChain(w, t) && t.sender == Some(k) :: s !in t.source
  }

  /** A copy that holds a transaction comes with copies that hold its sources. */
  ghost predicate CopyClosed(w: World, n: NodeId, t: Transaction, s: Transaction)
    requires t.sender.Some?
  {
    t.block < |Copy(w, n, t.sender.value).blocks| && s.sender.Some? && s.sender != Some(n) ==>
      s.block < |Copy(w, n, s.sender.value).blocks|
  }

  ghost predicate CopiesClosed(w: World) {
    forall n, t, s | n in w.state && InChain(w, t) && s in t.source :: CopyClosed(w, n, t, s)
  }

  // ---- channels ----

  function SegmentEnd(msg: Message, k: NodeId): nat {
    var u := UpdateOf(msg.updates, k);
    if u == [] then 0 else u[|u| - 1].number + 1
  }

  function Max(a: nat, b: nat): nat {
    if a < b then b else a
  }

  /** How much of chain `k` a copy of length `len` covers once `msgs` have been applied. */
  function Coverage(len: nat, msgs: seq<Message>, k: NodeId): nat
    decreases |msgs|
  {
    if msgs == [] then len else Max(Coverage(len, msgs[..|msgs| - 1], k), SegmentEnd(msgs[|msgs| - 1], k))
  }

  /** What `m` will have of chain `k` when it has handled the first `j` messages of `n`. */
  function Reached(w: World, n: NodeId, m: NodeId, j: nat, k: NodeId): nat
    requires j <= |Queue(w, n, m)|
  {
    Coverage(|Copy(w, m, k).blocks|, Queue(w, n, m)[..j], k)
  }

  /** A segment is a piece of the chain that the sender has, and ends on the main chain. */
  ghost predicate PieceOk(w: World, n: NodeId, m: NodeId, k: NodeId, u: seq<Block>) {
    && k in w.state && k != m && u != []
    && var first := u[0].number;
       && first + |u| <= |Copy(w, n, k).blocks|
       && first + |u| <= |Own(w, k)| && u == From(Own(w, k)[..first + |u|], first)
       && u[|u| - 1] in w.mainChain
  }

  /** It does not start past `limit` either. */
  ghost predicate SegmentOk(w: World, n: NodeId, m: NodeId, k: NodeId, u: seq<Block>, limit: nat) {
    PieceOk(w, n, m, k, u) && u[0].number <= limit
  }

  predicate Carries(msg: Message, k: NodeId, b: nat) {
    var u := UpdateOf(msg.updates, k);
    u != [] && u[0].number <= b < u[0].number + |u|
  }

  ghost predicate MainOk(w: World, n: NodeId, m: NodeId, j: nat)
    requires j < |Queue(w, n, m)|
  {
    var t := Queue(w, n, m)[j].main;
    InChain(w, t) && t.sender == Some(n) && t.receiver == m && t.block <= Sent(w, n) && t !in Received(w, m)
  }

  ghost predicate MessageOk(w: World, n: NodeId, m: NodeId, j: nat)
    requires j < |Queue(w, n, m)|
  {
    MainOk(w, n, m, j)
    && forall k | k in Queue(w, n, m)[j].updates :: PieceOk(w, n, m, k, Queue(w, n, m)[j].updates[k])
  }

  /** Transactions travel in the order of their blocks. */
  ghost predicate InOrder(w: World, n: NodeId, m: NodeId) {
    forall i, j | 0 <= i < j < |Queue(w, n, m)| :: Queue(w, n, m)[i].main.block < Queue(w, n, m)[j].main.block
  }

  /** What has been sent is taken to be known. */
  ghost predicate SentIsKnown(w: World, n: NodeId, m: NodeId) {
    forall j, k | 0 <= j < |Queue(w, n, m)| && k != m :: SegmentEnd(Queue(w, n, m)[j], k) <= LastKnown(Known(w, n, m), k) + 1
  }

  /** No block travels twice on one channel. */
  ghost predicate Ascends(w: World, n: NodeId, m: NodeId) {
    forall i, j, k | 0 <= i < j < |Queue(w, n, m)| && k in Queue(w, n, m)[j].updates && Queue(w, n, m)[j].updates[k] != [] ::
      SegmentEnd(Queue(w, n, m)[i], k) <= Queue(w, n, m)[j].updates[k][0].number
  }

  ghost predicate ChannelOk(w: World, n: NodeId, m: NodeId) {
    && InOrder(w, n, m) && SentIsKnown(w, n, m) && Ascends(w, n, m)
    && (Queue(w, n, m) != [] ==> n in w.state && m in w.state)
    && forall j | 0 <= j < |Queue(w, n, m)| :: MessageOk(w, n, m, j)
  }

  ghost predicate ReceivedOk(w: World) {
    forall m, t | t in Received(w, m) :: t.sender.Some? && t.block <= Sent(w, t.sender.value)
  }

  ghost predicate Inv(w: World) {
    && ChainsOk(w) && CopiesOk(w)
    && TransactionsOk(w) && SpentOnce(w) && UnspentOk(w) && CopiesClosed(w)
    && ReceivedOk(w)
    && forall n, m :: ChannelOk(w, n, m)
  }

  // ---- what a channel loses when a message with news is refused ----

  /** What a node believes a peer has, the peer has, or will have when the channel is drained. */
  ghost predicate KnownOk(w: World, n: NodeId, m: NodeId) {
    forall k | k != m :: LastKnown(Known(w, n, m), k) < Reached(w, n, m, |Queue(w, n, m)|, k)
  }

  /** No segment starts past what the receiver will have by then. */
  ghost predicate NoGap(w: World, n: NodeId, m: NodeId, j: nat)
    requires j < |Queue(w, n, m)|
  {
    forall k | k in Queue(w, n, m)[j].updates && Queue(w, n, m)[j].updates[k] != [] ::
      Queue(w, n, m)[j].updates[k][0].number <= Reached(w, n, m, j, k)
  }

  ghost predicate MessageClosed(w: World, n: NodeId, m: NodeId, j: nat, t: Transaction, s: Transaction)
    requires j < |Queue(w, n, m)| && t.sender.Some?
  {
    Carries(Queue(w, n, m)[j], t.sender.value, t.block) && s.sender.Some? && s.sender != Some(m) ==>
      s.block < Reached(w, n, m, j + 1, s.sender.value)
  }

  /** A message closes what the receiver will have. */
  ghost predicate Closes(w: World, n: NodeId, m: NodeId, j: nat)
    requires j < |Queue(w, n, m)|
  {
    && Queue(w, n, m)[j].main.block < Reached(w, n, m, j + 1, n)
    && forall t, s | InChain(w, t) && s in t.source :: MessageClosed(w, n, m, j, t, s)
  }

  /** Knowledge of the peer is right, and nothing on the way leaves a gap, */
  ghost predicate Safe(w: World, n: NodeId, m: NodeId) {
    KnownOk(w, n, m) && forall j | 0 <= j < |Queue(w, n, m)| :: NoGap(w, n, m, j)
  }

  /** and everything on the way is closed: all of it will decode. */
  ghost predicate Intact(w: World, n: NodeId, m: NodeId) {
    Safe(w, n, m) && forall j | 0 <= j < |Queue(w, n, m)| :: Closes(w, n, m, j)
  }

  // ---- facts about Coverage ----

  lemma {:induction false} CoverageGrows(a: nat, b: nat, msgs: seq<Message>, k: NodeId)
    requires a <= b
    ensures a <= Coverage(a, msgs, k) <= Coverage(b, msgs, k)
    decreases |msgs|
  {
    if msgs != [] {
      CoverageGrows(a, b, msgs[..|msgs| - 1], k);
    }
  }

  /** Handling the first message turns its segment into part of the copy. */
  lemma {:induction false} CoverageShift(len: nat, msgs: seq<Message>, k: NodeId)
    requires msgs != []
    ensures Coverage(len, msgs, k) == Coverage(Max(len, SegmentEnd(msgs[0], k)), msgs[1..], k)
    decreases |msgs|
  {
    if |msgs| > 1 {
      var init := msgs[..|msgs| - 1];
      CoverageShift(len, init, k);
      assert init[1..] == msgs[1..][..|msgs| - 2];
      assert msgs[1..][|msgs| - 2] == msgs[|msgs| - 1];
    } else {
      assert msgs[..0] == [] && msgs[1..] == [];
    }
  }

  // ---- growth: what the passing of time cannot undo ----

  /** Chains, copies, sent marks, received sets and the main chain only grow. */
  ghost predicate Grows(w: World, v: World) {
    && w.state.Keys == v.state.Keys && w.genesis == v.genesis && w.mainChain <= v.mainChain
    && (forall k :: Own(w, k) <= Own(v, k))
    && (forall n, k :: |Copy(w, n, k).blocks| <= |Copy(v, n, k).blocks|)
    && (forall n :: Sent(w, n) <= Sent(v, n))
    && (forall n :: Received(w, n) <= Received(v, n))
  }

  lemma InChainGrows(w: World, v: World, t: Transaction)
    requires Grows(w, v) && InChain(w, t)
    ensures InChain(v, t)
  {
    var k := t.sender.value;
    assert Own(w, k) <= Own(v, k);
    assert Own(v, k)[t.block] == Own(w, k)[t.block];
  }

  lemma SpendableGrows(w: World, v: World, k: NodeId, s: Transaction)
    requires Grows(w, v) && Spendable(w, k, s)
    ensures Spendable(v, k, s)
  {
    if s.sender.Some? {
      InChainGrows(w, v, s);
      if s.sender != Some(k) {
        assert s in Received(v, k) && Sent(w, s.sender.value) <= Sent(v, s.sender.value);
        assert |Copy(w, k, s.sender.value).blocks| <= |Copy(v, k, s.sender.value).blocks|;
      }
    }
  }

  lemma TransactionGrows(w: World, v: World, t: Transaction)
    requires Grows(w, v) && t.sender.Some? && TransactionOk(w, t)
    ensures TransactionOk(v, t)
  {
    forall s | s in t.source
      ensures Spendable(v, t.sender.value, s)
    {
      SpendableGrows(w, v, t.sender.value, s);
    }
  }

  lemma PieceGrows(w: World, v: World, n: NodeId, m: NodeId, k: NodeId, u: seq<Block>)
    requires Grows(w, v) && PieceOk(w, n, m, k, u)
    ensures PieceOk(v, n, m, k, u)
  {
    assert Own(w, k) <= Own(v, k);
    assert |Copy(w, n, k).blocks| <= |Copy(v, n, k).blocks|;
    var first := u[0].number;
    assert Own(v, k)[..first + |u|] == Own(w, k)[..first + |u|];
  }
}
