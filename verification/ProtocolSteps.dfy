/** Each step keeps the protocol invariant. */
module ProtocolSteps {
  import opened Ledger
  import opened ChainReach
  import opened Replicas
  import opened ChainReplication
  import opened Validation
  import opened Protocol
  import opened ProtocolInvariant
  import PC = ProofConstruction

  // ---- carrying the parts of the invariant forward ----

  /** What is at a place an older chain already had was there then. */
  lemma InChainBack(w: World, v: World, t: Transaction)
    requires Grows(w, v) && InChain(v, t) && t.block < |Own(w, t.sender.value)|
    ensures InChain(w, t)
  {
    var k := t.sender.value;
    assert Own(w, k) <= Own(v, k);
    assert Own(v, k)[t.block] == Own(w, k)[t.block];
  }

  lemma TransactionsGrow(w: World, v: World)
    requires Grows(w, v) && TransactionsOk(w)
    requires forall t | InChain(v, t) && t.block >= |Own(w, t.sender.value)| :: TransactionOk(v, t)
    ensures TransactionsOk(v)
  {
    forall t | InChain(v, t)
      ensures TransactionOk(v, t)
    {
      if t.block < |Own(w, t.sender.value)| {
        InChainBack(w, v, t);
        TransactionGrows(w, v, t);
      }
    }
  }

  /** Nothing new in any chain. */
  ghost predicate SameChains(w: World, v: World) {
    forall k :: Own(w, k) == Own(v, k)
  }

  lemma SpendingUnchanged(w: World, v: World)
    requires Grows(w, v) && SameChains(w, v) && TransactionsOk(w) && SpentOnce(w)
    ensures TransactionsOk(v) && SpentOnce(v)
    ensures forall t :: InChain(w, t) <==> InChain(v, t)
  {
    forall t
      ensures InChain(w, t) <==> InChain(v, t)
    {
      if t.sender.Some? {
        assert Own(w, t.sender.value) == Own(v, t.sender.value);
      }
    }
    TransactionsGrow(w, v);
  }

  lemma MessageGrows(w: World, v: World, n: NodeId, m: NodeId, i: nat, j: nat)
    requires Grows(w, v) && i < |Queue(w, n, m)| && j < |Queue(v, n, m)| && Queue(v, n, m)[j] == Queue(w, n, m)[i]
    requires MessageOk(w, n, m, i) && Queue(w, n, m)[i].main !in Received(v, m)
    ensures MessageOk(v, n, m, j)
  {
    var msg := Queue(w, n, m)[i];
    InChainGrows(w, v, msg.main);
    assert Sent(w, n) <= Sent(v, n);
    forall k | k in msg.updates
      ensures PieceOk(v, n, m, k, msg.updates[k])
    {
      PieceGrows(w, v, n, m, k, msg.updates[k]);
    }
  }

  /** A channel that the step does not touch. */
  lemma ChannelGrows(w: World, v: World, n: NodeId, m: NodeId)
    requires Grows(w, v) && ChannelOk(w, n, m)
    requires Queue(v, n, m) == Queue(w, n, m) && KnowsMore(w, v, n, m)
    requires forall j | 0 <= j < |Queue(w, n, m)| :: Queue(w, n, m)[j].main !in Received(v, m)
    ensures ChannelOk(v, n, m)
  {
    forall j | 0 <= j < |Queue(v, n, m)|
      ensures MessageOk(v, n, m, j)
    {
      MessageGrows(w, v, n, m, j, j);
    }
    forall j, k | 0 <= j < |Queue(v, n, m)| && k != m
      ensures SegmentEnd(Queue(v, n, m)[j], k) <= LastKnown(Known(v, n, m), k) + 1
    {
      assert SegmentEnd(Queue(w, n, m)[j], k) <= LastKnown(Known(w, n, m), k) + 1;
    }
  }

  ghost predicate KnowsMore(w: World, v: World, n: NodeId, m: NodeId) {
    forall k :: LastKnown(Known(w, n, m), k) <= LastKnown(Known(v, n, m), k)
  }

  // ---- steps of one node ----

  /** `v` is `w` with node `n` in state `s`. */
  ghost predicate Changed(w: World, v: World, n: NodeId, s: NodeState) {
    && n in w.state && v.state == w.state[n := s]
    && v.channel == w.channel && v.genesis == w.genesis && w.mainChain <= v.mainChain
  }

  lemma ChangedReads(w: World, v: World, n: NodeId, s: NodeState)
    requires Changed(w, v, n, s)
    ensures w.state.Keys == v.state.Keys
    ensures forall a, k :: Copy(v, a, k) == if a == n then CopyIn(s, k) else Copy(w, a, k)
    ensures forall a, b :: Known(v, a, b) == if a == n then KnownIn(s, b) else Known(w, a, b)
    ensures forall a :: Sent(v, a) == if a == n then s.alreadySent else Sent(w, a)
    ensures forall a :: Received(v, a) == if a == n then s.received else Received(w, a)
    ensures forall a :: Unspent(v, a) == if a == n then s.unspent else Unspent(w, a)
    ensures forall a, b :: Queue(v, a, b) == Queue(w, a, b)
    ensures forall a | a in v.state :: v.state[a] == if a == n then s else w.state[a]
  {
  }

  lemma QuietChange(w: World, v: World, n: NodeId, s: NodeState)
    requires Changed(w, v, n, s) && s.known == w.state[n].known && s.received == w.state[n].received
    requires s.unspent == w.state[n].unspent && w.state[n].alreadySent <= s.alreadySent
    requires forall k :: CopyIn(s, k).blocks == Copy(w, n, k).blocks
    ensures Quiet(w, v)
  {
    ChangedReads(w, v, n, s);
  }

  lemma OnlyOwnChange(w: World, v: World, n: NodeId, s: NodeState)
    requires Changed(w, v, n, s) && s.cache <= w.state[n].cache + v.mainChain && s.copies.Keys <= w.state[n].copies.Keys + {n}
    requires forall k | k != n :: CopyIn(s, k) == Copy(w, n, k)
    ensures OnlyOwn(w, v, n)
  {
    ChangedReads(w, v, n, s);
  }

  // ---- steps that leave chains and channels alone ----

  /** Only pointers, caches, sent marks and the main chain may differ. */
  ghost predicate Quiet(w: World, v: World) {
    && Grows(w, v) && SameChains(w, v)
    && (forall n, k :: Copy(w, n, k).blocks == Copy(v, n, k).blocks)
    && (forall n :: Received(w, n) == Received(v, n) && Unspent(w, n) == Unspent(v, n))
    && (forall n, m :: Known(w, n, m) == Known(v, n, m) && Queue(w, n, m) == Queue(v, n, m))
  }

  lemma QuietKeeps(w: World, v: World)
    requires Inv(w) && Quiet(w, v) && CopiesOk(v)
    ensures Inv(v)
  {
    SameBlocksKeep(w, v);
    forall n, m
      ensures ChannelOk(v, n, m)
    {
      assert ChannelOk(w, n, m);
      assert Received(w, m) == Received(v, m);
      forall j | 0 <= j < |Queue(w, n, m)|
        ensures Queue(w, n, m)[j].main !in Received(v, m)
      {
        assert MessageOk(w, n, m, j);
      }
      ChannelGrows(w, v, n, m);
    }
  }

  /** All but the channels is kept when nobody gets new blocks or transactions. */
  lemma SameBlocksKeep(w: World, v: World)
    requires ChainsOk(w) && TransactionsOk(w) && SpentOnce(w) && UnspentOk(w) && CopiesClosed(w) && ReceivedOk(w)
    requires Grows(w, v) && SameChains(w, v)
    requires forall n, k :: Copy(w, n, k).blocks == Copy(v, n, k).blocks
    requires forall n :: Received(w, n) == Received(v, n) && Unspent(w, n) == Unspent(v, n)
    ensures ChainsOk(v) && TransactionsOk(v) && SpentOnce(v) && UnspentOk(v) && CopiesClosed(v) && ReceivedOk(v)
  {
    SpendingUnchanged(w, v);
    forall k: NodeId, s | s in Unspent(v, k)
      ensures Spendable(v, k, s)
    {
      assert Unspent(w, k) == Unspent(v, k);
      SpendableGrows(w, v, k, s);
    }
    forall n, t, s | n in v.state && InChain(v, t) && s in t.source
      ensures CopyClosed(v, n, t, s)
    {
      assert CopyClosed(w, n, t, s);
    }
    forall m, t | t in Received(v, m)
      ensures t.sender.Some? && t.block <= Sent(v, t.sender.value)
    {
      assert t in Received(w, m) && Sent(w, t.sender.value) <= Sent(v, t.sender.value);
    }
    SameOwnChains(w, v);
  }

  lemma SameOwnChains(w: World, v: World)
    requires ChainsOk(w) && SameChains(w, v) && w.genesis == v.genesis && w.state.Keys == v.state.Keys
    ensures ChainsOk(v)
  {
    forall k | k in v.state
      ensures OwnChainOk(v, k)
    {
      assert OwnChainOk(w, k);
      OwnChainStays(w, v, k);
    }
  }

  /** Apart from `n` itself, nobody's copies or sent marks change. */
  ghost predicate OnlyOwn(w: World, v: World, n: NodeId) {
    && n in w.state
    && (forall a, b | !(a == n && b == n) :: Copy(v, a, b) == Copy(w, a, b))
    && (forall a | a != n :: Sent(v, a) == Sent(w, a))
    && (forall a | a in v.state :: a in w.state && v.state[a].cache <= w.state[a].cache + v.mainChain)
    && (forall a | a in v.state :: v.state[a].copies.Keys <= w.state[a].copies.Keys + {n})
  }

  lemma OnlyOwnCopies(w: World, v: World, n: NodeId)
    requires CopiesOk(w) && Grows(w, v) && OnlyOwn(w, v, n) && CopyOk(v, n, n)
    ensures CopiesOk(v)
  {
    forall a, b | a in v.state && b in v.state
      ensures CopyOk(v, a, b)
    {
      assert CopyOk(w, a, b);
      assert Own(w, b) <= Own(v, b);
    }
    forall a, b | a in v.state && b in v.state[a].copies
      ensures b in v.state
    {
      assert b in w.state[a].copies || b == n;
    }
  }

  lemma CommitKeeps(w: World, n: NodeId, reaches: bool)
    requires Inv(w) && Enabled(w, Commit(n, reaches))
    ensures Inv(AfterCommit(w, n, reaches))
  {
    var v := AfterCommit(w, n, reaches);
    assert CopyOk(w, n, n);
    CommitFacts(w, n, reaches);
    OnlyOwnCopies(w, v, n);
    QuietKeeps(w, v);
  }

  lemma CommitFacts(w: World, n: NodeId, reaches: bool)
    requires Enabled(w, Commit(n, reaches)) && CopyOk(w, n, n)
    ensures var v := AfterCommit(w, n, reaches); Quiet(w, v) && OnlyOwn(w, v, n) && CopyOk(v, n, n)
  {
    var v, c := AfterCommit(w, n, reaches), Copy(w, n, n);
    var next := CommitNext(c.next, |c.blocks| - 1);
    var s := SetOwn(w.state[n], n, c.(next := next));
    assert v.state == w.state[n := s];
    QuietChange(w, v, n, s);
    OnlyOwnChange(w, v, n, s);
    ChangedReads(w, v, n, s);
    CommittedCopyOk(w, v, n);
  }

  lemma CommittedCopyOk(w: World, v: World, n: NodeId)
    requires CopyOk(w, n, n) && Own(w, n) != [] && w.mainChain <= v.mainChain && Sent(v, n) == Sent(w, n)
    requires Copy(v, n, n) == Copy(w, n, n).(next := CommitNext(Copy(w, n, n).next, |Own(w, n)| - 1))
    ensures CopyOk(v, n, n)
  {
  }

  lemma RecogniseKeeps(w: World, n: NodeId, k: NodeId, b: nat)
    requires Inv(w) && Enabled(w, Recognise(n, k, b))
    ensures Inv(AfterRecognise(w, n, k, b))
  {
    var v := AfterRecognise(w, n, k, b);
    assert k in w.state[n].copies;
    assert CopyOk(w, n, k);
    RecogniseFacts(w, n, k, b);
    forall a, c | a in v.state && c in v.state
      ensures CopyOk(v, a, c)
    {
      assert CopyOk(w, a, c);
    }
    QuietKeeps(w, v);
  }

  lemma RecogniseFacts(w: World, n: NodeId, k: NodeId, b: nat)
    requires Enabled(w, Recognise(n, k, b)) && k in w.state[n].copies && CopyOk(w, n, k) && w.state[n].cache <= w.mainChain
    ensures var v := AfterRecognise(w, n, k, b);
            && Quiet(w, v) && v.mainChain == w.mainChain && CopyOk(v, n, k)
            && (forall a, c | !(a == n && c == k) :: Copy(v, a, c) == Copy(w, a, c))
            && (forall a :: Sent(v, a) == Sent(w, a))
            && (forall a | a in v.state :: v.state[a].cache == w.state[a].cache && v.state[a].copies.Keys == w.state[a].copies.Keys)
  {
    var v, c := AfterRecognise(w, n, k, b), Copy(w, n, k);
    var s := SetOwn(w.state[n], k, c.(next := c.next[b := b]));
    assert v.state == w.state[n := s];
    assert s.copies.Keys == w.state[n].copies.Keys;
    QuietChange(w, v, n, s);
    ChangedReads(w, v, n, s);
  }

  lemma LearnKeeps(w: World, n: NodeId, block: Block)
    requires Inv(w) && Enabled(w, Learn(n, block))
    ensures Inv(Apply(w, Learn(n, block)))
  {
    var v := Apply(w, Learn(n, block));
    assert CopyOk(w, n, n);
    LearnFacts(w, n, block);
    OnlyOwnCopies(w, v, n);
    QuietKeeps(w, v);
  }

  lemma LearnFacts(w: World, n: NodeId, block: Block)
    requires Enabled(w, Learn(n, block)) && CopyOk(w, n, n)
    ensures var v := Apply(w, Learn(n, block)); Quiet(w, v) && OnlyOwn(w, v, n) && CopyOk(v, n, n)
  {
    var v, s := Apply(w, Learn(n, block)), w.state[n].(cache := w.state[n].cache + {block});
    assert v.state == w.state[n := s];
    QuietChange(w, v, n, s);
    OnlyOwnChange(w, v, n, s);
    ChangedReads(w, v, n, s);
  }

  lemma PassedKeeps(w: World, n: NodeId)
    requires Inv(w) && MaySend(w, n)
    ensures Inv(Passed(w, n))
  {
    var v := Passed(w, n);
    assert CopyOk(w, n, n);
    PassedFacts(w, n);
    OnlyOwnCopies(w, v, n);
    QuietKeeps(w, v);
  }

  lemma PassedFacts(w: World, n: NodeId)
    requires MaySend(w, n) && CopyOk(w, n, n)
    requires w.state[n].cache <= w.mainChain
    ensures var v := Passed(w, n); Quiet(w, v) && OnlyOwn(w, v, n) && CopyOk(v, n, n)
  {
    var v, s := Passed(w, n), w.state[n].(alreadySent := Sent(w, n) + 1);
    assert v.state == w.state[n := s];
    QuietChange(w, v, n, s);
    OnlyOwnChange(w, v, n, s);
    ChangedReads(w, v, n, s);
  }

  // ---- a new block on an own chain ----

  /** `v` is `w` with a block of transactions `ts` at the end of the chain of `n`. */
  ghost predicate Extended(w: World, n: NodeId, ts: seq<Transaction>, v: World) {
    && Grows(w, v) && n in w.state && v.mainChain == w.mainChain
    && (forall a, b :: Copy(v, a, b) == if a == n && b == n then Appended(w, n, ts) else Copy(w, a, b))
    && (forall a :: Sent(v, a) == Sent(w, a) && Received(v, a) == Received(w, a))
    && (forall a | a != n :: Unspent(v, a) == Unspent(w, a))
    && (forall a, b :: Known(v, a, b) == Known(w, a, b) && Queue(v, a, b) == Queue(w, a, b))
    && (forall a | a in v.state :: a in w.state && v.state[a].cache == w.state[a].cache)
    && (forall a | a in v.state :: v.state[a].copies.Keys <= w.state[a].copies.Keys + {n})
  }

  lemma ExtendedChains(w: World, n: NodeId, ts: seq<Transaction>, v: World)
    requires ChainsOk(w) && Extended(w, n, ts, v)
    requires forall t | t in ts :: t.sender == Some(n) && t.block == |Own(w, n)| && ts == [t]
    ensures ChainsOk(v)
  {
    forall k | k in v.state
      ensures OwnChainOk(v, k)
    {
      assert OwnChainOk(w, k);
      if k == n {
        ExtendedOwn(w, n, ts, v);
      } else {
        OwnChainStays(w, v, k);
      }
    }
  }

  lemma OwnChainStays(w: World, v: World, k: NodeId)
    requires OwnChainOk(w, k) && Own(v, k) == Own(w, k) && w.genesis == v.genesis
    ensures OwnChainOk(v, k)
  {
  }

  lemma ExtendedOwn(w: World, n: NodeId, ts: seq<Transaction>, v: World)
    requires OwnChainOk(w, n) && w.genesis == v.genesis && Own(v, n) == Appended(w, n, ts).blocks
    requires forall t | t in ts :: t.sender == Some(n) && t.block == |Own(w, n)| && ts == [t]
    ensures OwnChainOk(v, n)
  {
  }

  lemma ExtendedCopies(w: World, n: NodeId, ts: seq<Transaction>, v: World)
    requires CopiesOk(w) && Extended(w, n, ts, v)
    ensures CopiesOk(v)
  {
    assert CopyOk(w, n, n);
    OnlyOwnCopies(w, v, n);
  }

  lemma ExtendedChannels(w: World, n: NodeId, ts: seq<Transaction>, v: World)
    requires Inv(w) && Extended(w, n, ts, v)
    ensures forall a, b :: ChannelOk(v, a, b)
  {
    forall a, b
      ensures ChannelOk(v, a, b)
    {
      assert ChannelOk(w, a, b);
      forall j | 0 <= j < |Queue(w, a, b)|
        ensures Queue(w, a, b)[j].main !in Received(v, b)
      {
        assert MessageOk(w, a, b, j);
      }
      ChannelGrows(w, v, a, b);
    }
  }

  lemma ExtendedClosed(w: World, n: NodeId, ts: seq<Transaction>, v: World)
    requires CopiesOk(w) && CopiesClosed(w) && Extended(w, n, ts, v) && TransactionsOk(v)
    ensures CopiesClosed(v)
  {
    forall a, t, s | a in v.state && InChain(v, t) && s in t.source
      ensures CopyClosed(v, a, t, s)
    {
      var k := t.sender.value;
      if t.block < |Own(w, k)| {
        InChainBack(w, v, t);
        assert CopyClosed(w, a, t, s);
      } else {
        assert CopyOk(w, a, k);
        assert Spendable(v, k, s);
      }
    }
  }

  lemma ExtendedBase(w: World, n: NodeId, ts: seq<Transaction>, v: World)
    requires Inv(w) && Extended(w, n, ts, v)
    requires forall t | t in ts :: t.sender == Some(n) && t.block == |Own(w, n)| && ts == [t]
    ensures ChainsOk(v) && CopiesOk(v) && ReceivedOk(v) && forall a, b :: ChannelOk(v, a, b)
  {
    ExtendedChains(w, n, ts, v);
    ExtendedCopies(w, n, ts, v);
    ExtendedChannels(w, n, ts, v);
    ExtendedReceived(w, n, ts, v);
  }

  lemma ExtendedReceived(w: World, n: NodeId, ts: seq<Transaction>, v: World)
    requires ReceivedOk(w) && Extended(w, n, ts, v)
    ensures ReceivedOk(v)
  {
  }

  lemma AppendEmptyKeeps(w: World, n: NodeId)
    requires Inv(w) && Enabled(w, AppendEmpty(n))
    ensures Inv(Apply(w, AppendEmpty(n)))
  {
    AppendEmptyFacts(w, n);
    EmptyKeeps(w, n, Apply(w, AppendEmpty(n)));
  }

  lemma EmptyKeeps(w: World, n: NodeId, v: World)
    requires Inv(w) && Extended(w, n, [], v) && forall k :: Unspent(v, k) == Unspent(w, k)
    ensures Inv(v)
  {
    ExtendedBase(w, n, [], v);
    NoNewTransactions(w, n, v);
    TransactionsGrow(w, v);
    ExtendedClosed(w, n, [], v);
    EmptyUnspent(w, n, v);
  }

  lemma EmptyUnspent(w: World, n: NodeId, v: World)
    requires UnspentOk(w) && ReceivedOk(w) && SpentOnce(w) && Extended(w, n, [], v)
    requires (forall k :: Unspent(v, k) == Unspent(w, k)) && forall t :: InChain(v, t) <==> InChain(w, t)
    ensures UnspentOk(v) && ReceivedOk(v) && SpentOnce(v)
  {
    forall k: NodeId, s | s in Unspent(v, k)
      ensures Spendable(v, k, s)
    {
      SpendableGrows(w, v, k, s);
    }
  }

  lemma AppendEmptyFacts(w: World, n: NodeId)
    requires Enabled(w, AppendEmpty(n))
    ensures var v := Apply(w, AppendEmpty(n));
            Extended(w, n, [], v) && forall k :: Unspent(v, k) == Unspent(w, k)
  {
    var v, s := Apply(w, AppendEmpty(n)), SetOwn(w.state[n], n, Appended(w, n, []));
    assert v.state == w.state[n := s];
    ExtendChange(w, v, n, [], s);
    ChangedReads(w, v, n, s);
  }

  lemma ExtendChange(w: World, v: World, n: NodeId, ts: seq<Transaction>, s: NodeState)
    requires Changed(w, v, n, s) && v.mainChain == w.mainChain && s.copies == w.state[n].copies[n := Appended(w, n, ts)]
    requires s.known == w.state[n].known && s.received == w.state[n].received && s.cache == w.state[n].cache
    requires s.alreadySent == w.state[n].alreadySent
    ensures Extended(w, n, ts, v)
  {
    ChangedReads(w, v, n, s);
  }

  lemma NoNewTransactions(w: World, n: NodeId, v: World)
    requires Extended(w, n, [], v)
    ensures forall t :: InChain(v, t) <==> InChain(w, t)
  {
    forall t
      ensures InChain(v, t) <==> InChain(w, t)
    {
      if InChain(v, t) && t.block < |Own(w, t.sender.value)| {
        InChainBack(w, v, t);
      }
      if InChain(w, t) {
        InChainGrows(w, v, t);
      }
    }
  }

  lemma CreateFacts(w: World, n: NodeId, r: NodeId, amount: nat, sources: set<Transaction>)
    requires Enabled(w, Create(n, r, amount, sources))
    ensures var t, v := NewTransaction(w, n, r, amount, sources), AfterCreate(w, n, r, amount, sources);
            && Extended(w, n, [t], v)
            && Unspent(v, n) == Unspent(w, n) - sources + if t.remainder > 0 then {t} else {}
  {
    var t, v := NewTransaction(w, n, r, amount, sources), AfterCreate(w, n, r, amount, sources);
    var s := v.state[n];
    assert v.state == w.state[n := s];
    ExtendChange(w, v, n, [t], s);
    ChangedReads(w, v, n, s);
  }

  /** The chains hold what they held, and the new transaction. */
  lemma OneNewTransaction(w: World, n: NodeId, t: Transaction, v: World)
    requires OwnChainOk(w, n) && Extended(w, n, [t], v) && t.sender == Some(n) && t.block == |Own(w, n)|
    ensures !InChain(w, t) && InChain(v, t)
    ensures forall u :: InChain(v, u) <==> InChain(w, u) || u == t
  {
    forall u
      ensures InChain(v, u) <==> InChain(w, u) || u == t
    {
      if InChain(v, u) && u.block < |Own(w, u.sender.value)| {
        InChainBack(w, v, u);
      }
      if InChain(w, u) {
        InChainGrows(w, v, u);
      }
    }
  }

  /** The new transaction spends what its sender could spend, and the books balance. */
  lemma NewTransactionOk(w: World, n: NodeId, r: NodeId, amount: nat, sources: set<Transaction>, v: World)
    requires Inv(w) && Enabled(w, Create(n, r, amount, sources)) && v == AfterCreate(w, n, r, amount, sources)
    ensures TransactionOk(v, NewTransaction(w, n, r, amount, sources))
  {
    var t := NewTransaction(w, n, r, amount, sources);
    CreateFacts(w, n, r, amount, sources);
    forall s | s in sources
      ensures Spendable(v, n, s) && (s.sender == t.sender ==> s.block < t.block)
      ensures Involves(n, s) && !(s.sender == Some(n) && s.receiver == n)
    {
      assert Spendable(w, n, s);
      SpendableGrows(w, v, n, s);
      if s.sender == Some(n) {
        assert TransactionOk(w, s);
      }
    }
    CreatedPassesMoneyCheckIff(t);
  }

  lemma CreateKeeps(w: World, n: NodeId, r: NodeId, amount: nat, sources: set<Transaction>)
    requires Inv(w) && Enabled(w, Create(n, r, amount, sources))
    ensures Inv(AfterCreate(w, n, r, amount, sources))
  {
    var t, v := NewTransaction(w, n, r, amount, sources), AfterCreate(w, n, r, amount, sources);
    CreateFacts(w, n, r, amount, sources);
    NewTransactionOk(w, n, r, amount, sources, v);
    CreatedKeeps(w, n, t, v);
  }

  lemma CreatedKeeps(w: World, n: NodeId, t: Transaction, v: World)
    requires Inv(w) && Extended(w, n, [t], v) && t.sender == Some(n) && t.block == |Own(w, n)|
    requires t.source <= Unspent(w, n) && TransactionOk(v, t) && Unspent(v, n) <= Unspent(w, n) - t.source + {t}
    ensures Inv(v)
  {
    assert OwnChainOk(w, n);
    OneNewTransaction(w, n, t, v);
    ExtendedBase(w, n, [t], v);
    TransactionsGrow(w, v);
    ExtendedClosed(w, n, [t], v);
    CreateSpending(w, n, t, v);
  }

  lemma CreateSpending(w: World, n: NodeId, t: Transaction, v: World)
    requires TransactionsOk(w) && SpentOnce(w) && UnspentOk(w) && OwnChainOk(w, n)
    requires Extended(w, n, [t], v) && t.sender == Some(n) && t.block == |Own(w, n)|
    requires t.source <= Unspent(w, n) && TransactionOk(v, t)
    requires Unspent(v, n) <= Unspent(w, n) - t.source + {t}
    ensures SpentOnce(v) && UnspentOk(v)
  {
    OneNewTransaction(w, n, t, v);
    forall u | InChain(w, u) && u.sender == Some(n)
      ensures u.source !! t.source && t !in u.source
    {
      assert TransactionOk(w, u);
      assert forall s | s in u.source :: Spendable(w, n, s);
    }
    forall k: NodeId, s | s in Unspent(v, k)
      ensures Spendable(v, k, s) && forall u | InChain(v, u) && u.sender == Some(k) :: s !in u.source
    {
      if s == t {
        assert k == n && t !in t.source;
      } else {
        assert s in Unspent(w, k);
        SpendableGrows(w, v, k, s);
      }
    }
  }
}
