/** What source selection is charged for, seen in the runs of the protocol: the chains
    that it counts are all in the proof that is sent. */
module ProtocolEstimate {
  import opened Ledger
  import opened ChainReach
  import opened Validation
  import opened Protocol
  import opened ProtocolInvariant
  import opened ProtocolSteps
  import opened ProtocolSend
  import opened ProtocolDelivery
  import opened ProtocolReceive
  import opened ProtocolIntact
  import opened ProtocolRuns
  import opened Replicas
  import PC = ProofConstruction

  /** The history of a transaction in a copy is causal, as the proof builder sees it. */
  lemma {:induction false} HistoryCausal(w: World, n: NodeId, r: NodeId, f: PC.Family, t: Transaction)
    requires n in w.state && ChainsOk(w) && CopiesOk(w) && TransactionsOk(w) && CopiesClosed(w)
    requires Sent(w, n) < PC.End(SettingOf(w, n, r), f, n)
    requires InChain(w, t) && t.block < |Copy(w, n, t.sender.value).blocks|
    requires t.sender == Some(n) ==> t.block < PC.End(SettingOf(w, n, r), f, n)
    requires !SettingOf(w, n, r).Skips(t) ==> SettingOf(w, n, r).Located(t) && t.block < SettingOf(w, n, r).Needed(t)
    ensures PC.Causal(SettingOf(w, n, r), f, t)
  {
    var k := t.sender.value;
    assert CopyOk(w, n, k);
    assert Copy(w, n, k).blocks[t.block] == Own(w, k)[t.block];
    assert SettingOf(w, n, r).InBlock(k, t.block, t);
    forall s | s in t.source
      ensures PC.Causal(SettingOf(w, n, r), f, s)
    {
      if s.sender.None? {
        assert TransactionOk(w, t) && Spendable(w, k, s);
        assert s.source == {};
      } else {
        SourceCausal(w, n, r, f, t, s);
        HistoryCausal(w, n, r, f, s);
      }
    }
  }

  lemma SourceCausal(w: World, n: NodeId, r: NodeId, f: PC.Family, t: Transaction, s: Transaction)
    requires n in w.state && ChainsOk(w) && CopiesOk(w) && TransactionsOk(w) && CopiesClosed(w)
    requires Sent(w, n) < PC.End(SettingOf(w, n, r), f, n)
    requires InChain(w, t) && t.block < |Copy(w, n, t.sender.value).blocks| && s in t.source && s.sender.Some?
    requires t.sender == Some(n) ==> t.block < PC.End(SettingOf(w, n, r), f, n)
    requires SettingOf(w, n, r).InBlock(t.sender.value, t.block, t)
    ensures InChain(w, s) && s.block < |Copy(w, n, s.sender.value).blocks|
    ensures s.sender == Some(n) ==> s.block < PC.End(SettingOf(w, n, r), f, n)
    ensures !SettingOf(w, n, r).Skips(s) ==> SettingOf(w, n, r).Located(s) && s.block < SettingOf(w, n, r).Needed(s)
  {
    assert TransactionOk(w, t) && Spendable(w, t.sender.value, s);
    assert CopyClosed(w, n, t, s);
    if !SettingOf(w, n, r).Skips(s) {
      SourceLocated(w, n, r, t.sender.value, t.block, t, s);
    }
  }

  // ---- knowledge of our own chain is closed ----

  /** A peer is taken to know no more of our chain than there is, and with a block of it also
      the sources of the transactions in that block. */
  ghost predicate KnowledgeClosed(w: World, n: NodeId, r: NodeId) {
    && LastKnown(Known(w, n, r), n) < |Own(w, n)|
    && forall t, s | InChain(w, t) && t.sender == Some(n) && s in t.source :: SourceKnown(w, n, r, t, s)
  }

  ghost predicate SourceKnown(w: World, n: NodeId, r: NodeId, t: Transaction, s: Transaction) {
    t.block <= LastKnown(Known(w, n, r), n) && s.sender.Some? && s.sender != Some(r) ==>
      s.block <= LastKnown(Known(w, n, r), s.sender.value)
  }

  ghost predicate AllClosed(w: World) {
    forall n, r :: KnowledgeClosed(w, n, r)
  }

  lemma ClosedGrows(w: World, v: World, n: NodeId, r: NodeId)
    requires Grows(w, v) && KnowledgeClosed(w, n, r) && KnowsMore(w, v, n, r)
    requires LastKnown(Known(v, n, r), n) == LastKnown(Known(w, n, r), n)
    ensures KnowledgeClosed(v, n, r)
  {
    assert Own(w, n) <= Own(v, n);
    forall t, s | InChain(v, t) && t.sender == Some(n) && s in t.source
      ensures SourceKnown(v, n, r, t, s)
    {
      if t.block <= LastKnown(Known(v, n, r), n) {
        InChainBack(w, v, t);
        assert SourceKnown(w, n, r, t, s);
      }
    }
  }

  /** With a block of its own chain, a proof provides what its transactions spend. */
  lemma ProofTeachesSources(w: World, n: NodeId, t: Transaction, f: PC.Family, u: Transaction, s: Transaction)
    requires ChainsOk(w) && CopiesOk(w) && TransactionsOk(w) && CopiesClosed(w) && Proven(w, n, t, f)
    requires InChain(w, u) && u.sender == Some(n) && s in u.source && s.sender.Some? && s.sender != Some(t.receiver)
    requires s.sender != Some(n) && Carries(Message(t, f), n, u.block)
    ensures s.block <= Learned(Known(w, n, t.receiver), t.receiver, f, s.sender.value)
  {
    var s0, o := SettingOf(w, n, t.receiver), s.sender.value;
    CarriedInBlock(w, n, t, f, u);
    ProofIsFamily(w, n, t, f);
    assert PC.BlockClosed(s0, f, n, u.block);
    assert PC.SourcesProvided(s0, f, u);
    assert PC.SourceProvided(s0, f, s);
    SourceLocated(w, n, t.receiver, n, u.block, u, s);
    if o in f {
      NewPieceOf(w, n, t, f, o);
    }
  }

  lemma PostClosed(w: World, n: NodeId, t: Transaction, f: PC.Family, v: World)
    requires ChainsOk(w) && CopiesOk(w) && TransactionsOk(w) && CopiesClosed(w) && Proven(w, n, t, f)
    requires Posted(w, n, t.receiver, Message(t, f), v) && KnowledgeClosed(w, n, t.receiver) && t.receiver != n
    ensures KnowledgeClosed(v, n, t.receiver)
  {
    var r := t.receiver;
    assert Own(v, n) == Own(w, n);
    if n in f {
      NewPieceOf(w, n, t, f, n);
      OwnPieceNumbers(w, n, r, f);
    }
    forall u, s | InChain(v, u) && u.sender == Some(n) && s in u.source
      ensures SourceKnown(v, n, r, u, s)
    {
      assert InChain(w, u);
      PostSourceKnown(w, n, t, f, v, u, s);
    }
  }

  lemma OwnPieceNumbers(w: World, n: NodeId, r: NodeId, f: PC.Family)
    requires n in f && PieceOk(w, n, r, n, f[n]) && ChainsOk(w)
    ensures f[n][|f[n]| - 1].number == f[n][0].number + |f[n]| - 1 < |Own(w, n)|
  {
    assert OwnChainOk(w, n);
  }

  lemma PostSourceKnown(w: World, n: NodeId, t: Transaction, f: PC.Family, v: World, u: Transaction, s: Transaction)
    requires ChainsOk(w) && CopiesOk(w) && TransactionsOk(w) && CopiesClosed(w) && Proven(w, n, t, f)
    requires KnowledgeClosed(w, n, t.receiver) && t.receiver != n && InChain(w, u) && u.sender == Some(n) && s in u.source
    requires forall k :: LastKnown(Known(v, n, t.receiver), k) == Learned(Known(w, n, t.receiver), t.receiver, f, k)
    ensures SourceKnown(v, n, t.receiver, u, s)
  {
    var r := t.receiver;
    assert SourceKnown(w, n, r, u, s) && TransactionOk(w, u);
    if u.block <= LastKnown(Known(v, n, r), n) && s.sender.Some? && s.sender != Some(r) && s.sender != Some(n)
       && u.block > LastKnown(Known(w, n, r), n) {
      NewPieceOf(w, n, t, f, n);
      OwnPieceNumbers(w, n, r, f);
      ProofTeachesSources(w, n, t, f, u, s);
    }
  }

  // ---- every step keeps it ----

  lemma QuietClosed(w: World, v: World)
    requires Grows(w, v) && AllClosed(w) && forall n, r :: Known(v, n, r) == Known(w, n, r)
    ensures AllClosed(v)
  {
    forall n, r
      ensures KnowledgeClosed(v, n, r)
    {
      assert KnowledgeClosed(w, n, r);
      ClosedGrows(w, v, n, r);
    }
  }

  lemma PostKeepsClosed(p: World, n: NodeId, t: Transaction, f: PC.Family)
    requires Inv(p) && Proven(p, n, t, f) && Next(p, n, t) && AllClosed(p)
    ensures AllClosed(Post(p, n, t.receiver, Message(t, f)))
  {
    var v := Post(p, n, t.receiver, Message(t, f));
    PostFacts(p, n, t.receiver, Message(t, f));
    forall a, r
      ensures KnowledgeClosed(v, a, r)
    {
      assert KnowledgeClosed(p, a, r);
      if a == n && r == t.receiver {
        PostClosed(p, n, t, f, v);
      } else {
        ClosedGrows(p, v, a, r);
      }
    }
  }

  lemma SendKeepsClosed(w: World, n: NodeId, updates: PC.Family)
    requires Inv(w) && Enabled(w, SendNext(n, updates)) && AllClosed(w)
    ensures AllClosed(AfterSend(w, n, updates))
  {
    PassedClosed(w, n);
    SendIsReady(w, n, updates);
    if Own(w, n)[Sent(w, n) + 1].transactions != [] {
      NextKeepsClosed(w, n, updates);
    }
  }

  lemma PassedClosed(w: World, n: NodeId)
    requires CopiesOk(w) && MaySend(w, n) && AllClosed(w)
    ensures AllClosed(Passed(w, n))
  {
    assert CopyOk(w, n, n);
    PassedFacts(w, n);
    QuietClosed(w, Passed(w, n));
  }

  lemma NextKeepsClosed(w: World, n: NodeId, updates: PC.Family)
    requires Inv(w) && MaySend(w, n) && Ready(w, n, updates) && AllClosed(Passed(w, n))
    requires Own(w, n)[Sent(w, n) + 1].transactions != []
    ensures AllClosed(AfterSend(w, n, updates))
  {
    var p, ts := Passed(w, n), Own(w, n)[Sent(w, n) + 1].transactions;
    assert AfterSend(w, n, updates) == Shipped(p, n, ts, updates);
    PassedKeeps(w, n);
    PostKeepsClosed(p, n, ts[0], updates);
  }

  lemma ReceiveKeepsClosed(w: World, n: NodeId, m: NodeId)
    requires Inv(w) && Enabled(w, Receive(n, m)) && AllClosed(w)
    ensures AllClosed(AfterReceive(w, n, m))
  {
    HeadIsOk(w, n, m);
    if Protocol.Accepted(w, m, Queue(w, n, m)[0]) {
      assert ChannelOk(w, n, m);
      HeadFits(w, n, m);
      DeliveredFacts(w, n, m);
      DeliveredKeepsClosed(w, n, m, AfterReceive(w, n, m));
    } else {
      ShedFacts(w, n, m);
      QuietClosed(w, AfterReceive(w, n, m));
    }
  }

  /** A message never brings blocks of the receiver's own chain. */
  lemma DeliveredKeepsClosed(w: World, n: NodeId, m: NodeId, v: World)
    requires Queue(w, n, m) != [] && Delivered(w, n, m, v) && ChainsOk(w) && CopiesOk(w) && AllClosed(w)
    requires Fits(w, n, m, Queue(w, n, m)[0])
    ensures AllClosed(v)
  {
    DeliveredGrows(w, n, m, v);
    SegmentsAreForeign(w, n, m, Queue(w, n, m)[0]);
    forall a, r
      ensures KnowledgeClosed(v, a, r)
    {
      assert KnowledgeClosed(w, a, r);
      DeliveredTeaches(w, n, m, v, a, r);
      OwnKnowledgeStays(w, n, m, v, a, r);
      ClosedGrows(w, v, a, r);
    }
  }

  lemma OwnKnowledgeStays(w: World, n: NodeId, m: NodeId, v: World, a: NodeId, r: NodeId)
    requires Queue(w, n, m) != [] && Delivered(w, n, m, v) && m !in Queue(w, n, m)[0].updates
    ensures LastKnown(Known(v, a, r), a) == LastKnown(Known(w, a, r), a)
  {
  }

  lemma StepKeepsClosed(w: World, a: Action)
    requires Inv(w) && Enabled(w, a) && AllClosed(w)
    ensures AllClosed(Apply(w, a))
  {
    match a
    case Create(n, r, amount, sources) =>
      CreateFacts(w, n, r, amount, sources);
      QuietClosed(w, Apply(w, a));
    case AppendEmpty(n) =>
      AppendEmptyFacts(w, n);
      QuietClosed(w, Apply(w, a));
    case Commit(n, reaches) =>
      assert CopyOk(w, n, n);
      CommitFacts(w, n, reaches);
      QuietClosed(w, Apply(w, a));
    case Learn(n, block) =>
      assert CopyOk(w, n, n);
      LearnFacts(w, n, block);
      QuietClosed(w, Apply(w, a));
    case Recognise(n, k, b) =>
      assert k in w.state[n].copies;
      assert CopyOk(w, n, k);
      RecogniseFacts(w, n, k, b);
      QuietClosed(w, Apply(w, a));
    case SendNext(n, updates) => SendKeepsClosed(w, n, updates);
    case SendFails(n) => PassedClosed(w, n);
    case Receive(from, to) => ReceiveKeepsClosed(w, from, to);
  }

  lemma InitClosed(w: World)
    requires Init(w)
    ensures AllClosed(w)
  {
    assert forall n, r :: Known(w, n, r) == map[];
    assert forall t :: !InChain(w, t);
  }

  lemma {:induction false} RunKeepsClosed(w: World, actions: seq<Action>)
    requires Inv(w) && AllClosed(w) && IsRun(w, actions)
    ensures AllClosed(Outcome(w, actions))
    decreases |actions|
  {
    if actions != [] {
      StepKeeps(w, actions[0]);
      StepKeepsClosed(w, actions[0]);
      RunKeepsClosed(Apply(w, actions[0]), actions[1..]);
    }
  }

  // ---- the estimate ----

  /** The chains counted for the sources of `t` are in its proof. */
  ghost predicate Counted(w: World, n: NodeId, t: Transaction, updates: PC.Family) {
    var reach := ReachAll(t.source, t.receiver, Known(w, n, t.receiver));
    reach <= updates.Keys && |reach| <= |updates|
  }

  lemma ClosedSettles(w: World, n: NodeId, t: Transaction)
    requires n in w.state && KnowledgeClosed(w, n, t.receiver) && InChain(w, t) && t.sender == Some(n)
    ensures PC.KnowsSourcesToo(SettingOf(w, n, t.receiver), t)
  {
    forall s | s in t.source && t.block < SettingOf(w, n, t.receiver).First(n)
      ensures Skipped(s, t.receiver, Known(w, n, t.receiver))
    {
      assert SourceKnown(w, n, t.receiver, t, s);
    }
  }

  lemma EstimateOfNext(w: World, n: NodeId, t: Transaction, updates: PC.Family)
    requires Inv(w) && MaySend(w, n) && InChain(w, t) && t.sender == Some(n) && t.block == Sent(w, n) + 1
    requires SettingOf(w, n, t.receiver).Chain(n) == Copy(w, n, n)
    requires PC.Proves(SettingOf(w, n, t.receiver), t.block, updates) && KnowledgeClosed(w, n, t.receiver)
    ensures Counted(w, n, t, updates)
  {
    assert CopyOk(w, n, n);
    HistoryCausal(w, n, t.receiver, updates, t);
    ClosedSettles(w, n, t);
    PC.EstimateIsLowerBound(SettingOf(w, n, t.receiver), updates, t);
  }

  lemma NextInChain(w: World, n: NodeId, t: Transaction)
    requires n in w.state && OwnChainOk(w, n) && Sent(w, n) + 1 < |Own(w, n)|
    requires t in Own(w, n)[Sent(w, n) + 1].transactions
    ensures InChain(w, t) && t.sender == Some(n) && t.block == Sent(w, n) + 1
    ensures Own(w, n)[Sent(w, n) + 1].transactions == [t]
  {
  }

  lemma EstimateHolds(w: World, n: NodeId, updates: PC.Family, t: Transaction)
    requires Inv(w) && MaySend(w, n) && t in Own(w, n)[Sent(w, n) + 1].transactions
    requires KnowledgeClosed(w, n, t.receiver) && Enabled(w, SendNext(n, updates))
    ensures Counted(w, n, t, updates)
  {
    NextInChain(w, n, t);
    assert CopyOk(w, n, n);
    ChainIsCopy(w, n, t.receiver, n);
    EnabledProves(w, n, updates, t);
    EstimateOfNext(w, n, t, updates);
  }

  /** In every run: whatever transaction a node sends next with whatever proof, the chains
      that source selection counts with the same knowledge are chains of the proof. */
  lemma {:induction false} EstimateHoldsInRuns(w: World, actions: seq<Action>, v: World, n: NodeId, updates: PC.Family, t: Transaction)
    requires Init(w) && IsRun(w, actions) && v == Outcome(w, actions)
    requires Enabled(v, SendNext(n, updates)) && t in Own(v, n)[Sent(v, n) + 1].transactions
    ensures Counted(v, n, t, updates)
  {
    RunEndsIn(w, actions, v);
    InitHolds(w);
    InitClosed(w);
    RunKeepsClosed(w, actions);
    EstimateHolds(v, n, updates, t);
  }
}
