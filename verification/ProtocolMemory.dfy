/** What the nodes remember of earlier checks, over whole runs: the `locallyVerified` flags
    on the transactions they keep, and the cache of verdicts.  Memory never changes a decision. */
module ProtocolMemory {
  import opened Ledger
  import opened Replicas
  import opened ChainViews
  import opened ChainReplication
  import opened Validation
  import opened Protocol
  import opened ProtocolInvariant
  import opened ProtocolSteps
  import opened ProtocolSend
  import opened ProtocolDelivery
  import opened ProtocolReceive
  import opened ProtocolRuns
  import PC = ProofConstruction
  import PV = ProofVerification

  datatype Memory = Memory(flags: set<Transaction>, cache: Cache)

  /** The flags and the verdicts are right for what `e` shows. */
  ghost predicate Fitting(e: PV.Evidence, memory: Memory) {
    && PV.WellFormed(e)
    && (forall t | t in memory.flags :: PV.Verifies(e, t))
    && CacheGood(ViewsShown(e), memory.cache)
  }

  /** What a node shows without any message. */
  function OwnEvidence(w: World, m: NodeId): PV.Evidence
    requires m in w.state
  {
    EvidenceOf(w, m, map[])
  }

  ghost predicate MemoryOk(w: World, m: NodeId, memory: Memory)
    requires m in w.state
  {
    Fitting(OwnEvidence(w, m), memory)
  }

  // ---- evidence that grows keeps memory right ----

  /** All chains grow, and what is marked stays marked. */
  ghost predicate EvidenceGrows(e: PV.Evidence, later: PV.Evidence) {
    && PV.WellFormed(e) && PV.WellFormed(later) && PV.WellPlaced(later)
    && forall k :: PV.GrowsTo(PV.Chain(e, k), PV.Chain(later, k))
  }

  lemma MemoryLasts(e: PV.Evidence, later: PV.Evidence, memory: Memory)
    requires EvidenceGrows(e, later) && Fitting(e, memory)
    ensures Fitting(later, memory)
  {
    forall t | t in memory.flags
      ensures PV.Verifies(later, t)
    {
      PV.VerifiedLasts(e, later, t);
    }
    forall k
      ensures View(ViewsShown(e), k) <= View(ViewsShown(later), k)
    {
      assert PV.GrowsTo(PV.Chain(e, k), PV.Chain(later, k));
    }
    CacheLasts(ViewsShown(e), ViewsShown(later), memory.cache);
  }

  /** `d` is what `m` makes of a prefix of chain `k`. */
  ghost predicate Pictured(w: World, m: NodeId, k: NodeId, d: PV.Shown)
    requires m in w.state
  {
    && d.valid && |d.marked| == |d.blocks| && d.blocks <= Own(w, k)
    && (k !in w.state ==> d.blocks == [])
    && forall i | 0 <= i < |d.blocks| :: d.marked[i] == Marked(w, m, Copy(w, m, k), d.blocks, i)
  }

  ghost predicate AllPictured(w: World, m: NodeId, e: PV.Evidence)
    requires m in w.state
  {
    forall k :: Pictured(w, m, k, PV.Chain(e, k))
  }

  /** With a fitting message the evidence pictures every chain. */
  lemma ShownChain(w: World, n: NodeId, m: NodeId, msg: Message, k: NodeId)
    requires m in w.state && ChainsOk(w) && CopiesOk(w) && Fits(w, n, m, msg)
    ensures var d := PV.Chain(EvidenceOf(w, m, msg.updates), k);
            Pictured(w, m, k, d) && (k in w.state ==> |d.blocks| == Covered(w, m, msg, k))
  {
    if k in w.state {
      assert OwnChainOk(w, k) && CopyOk(w, m, k);
      ShowsPrefix(w, n, m, msg, k);
      ChainOfEvidence(w, m, k, msg.updates);
    }
  }

  /** The same without any message. */
  lemma OwnShownChain(w: World, m: NodeId, k: NodeId)
    requires m in w.state && ChainsOk(w) && CopiesOk(w)
    ensures var d := PV.Chain(OwnEvidence(w, m), k);
            Pictured(w, m, k, d) && (k in w.state ==> |d.blocks| == |Copy(w, m, k).blocks|)
  {
    var main: Transaction :| true;
    ShownChain(w, m, m, Message(main, map[]), k);
  }

  lemma PicturePlaced(w: World, m: NodeId, k: NodeId, d: PV.Shown)
    requires m in w.state && GenesisBlockOk(w.genesis) && (k in w.state ==> OwnChainOk(w, k)) && Pictured(w, m, k, d)
    ensures forall i, t | 0 <= i < |d.blocks| && t in d.blocks[i].transactions :: t.block == i
  {
    forall i | 0 <= i < |d.blocks|
      ensures d.blocks[i] == Own(w, k)[i]
    {
    }
  }

  lemma EvidencePlaced(w: World, m: NodeId, e: PV.Evidence)
    requires m in w.state && ChainsOk(w) && AllPictured(w, m, e)
    ensures PV.WellFormed(e) && PV.WellPlaced(e)
  {
    forall k
      ensures |PV.Chain(e, k).blocks| == |PV.Chain(e, k).marked|
      ensures forall i, t | 0 <= i < |PV.Chain(e, k).blocks| && t in PV.Chain(e, k).blocks[i].transactions :: t.block == i
    {
      assert Pictured(w, m, k, PV.Chain(e, k));
      PicturePlaced(w, m, k, PV.Chain(e, k));
    }
  }

  ghost predicate PointersLast(c: Replica, d: Replica) {
    forall i | 0 <= i < |c.next| && c.next[i] >= 0 :: i < |d.next| && d.next[i] >= 0
  }

  /** No node forgets what it has seen on the main chain, or that a block is committed. */
  ghost predicate MarksLast(w: World, v: World, m: NodeId)
    requires m in w.state && m in v.state
  {
    && w.state[m].cache <= v.state[m].cache
    && forall k :: PointersLast(Copy(w, m, k), Copy(v, m, k))
  }

  lemma PictureGrows(w: World, v: World, m: NodeId, k: NodeId, c: PV.Shown, d: PV.Shown)
    requires m in w.state && m in v.state
    requires w.state[m].cache <= v.state[m].cache && PointersLast(Copy(w, m, k), Copy(v, m, k))
    requires Own(w, k) <= Own(v, k) && |c.blocks| <= |d.blocks| && Pictured(w, m, k, c) && Pictured(v, m, k, d)
    ensures PV.GrowsTo(c, d)
  {
    forall i | 0 <= i < |c.blocks|
      ensures c.blocks[i] == d.blocks[i] && (c.marked[i] ==> d.marked[i])
    {
      assert c.blocks[i] == Own(w, k)[i] == Own(v, k)[i] == d.blocks[i];
      assert c.marked[i] == Marked(w, m, Copy(w, m, k), c.blocks, i);
      assert d.marked[i] == Marked(v, m, Copy(v, m, k), d.blocks, i);
    }
  }

  /** Evidence grows when it shows more of every chain, to a node that forgets nothing. */
  lemma PicturesGrow(w: World, v: World, m: NodeId, e: PV.Evidence, later: PV.Evidence)
    requires m in w.state && m in v.state && MarksLast(w, v, m) && AllPictured(w, m, e) && AllPictured(v, m, later)
    requires PV.WellFormed(e) && PV.WellFormed(later) && PV.WellPlaced(later)
    requires forall k :: Own(w, k) <= Own(v, k) && |PV.Chain(e, k).blocks| <= |PV.Chain(later, k).blocks|
    ensures EvidenceGrows(e, later)
  {
    forall k
      ensures PV.GrowsTo(PV.Chain(e, k), PV.Chain(later, k))
    {
      assert Pictured(w, m, k, PV.Chain(e, k)) && Pictured(v, m, k, PV.Chain(later, k));
      assert Own(w, k) <= Own(v, k) && PointersLast(Copy(w, m, k), Copy(v, m, k));
      PictureGrows(w, v, m, k, PV.Chain(e, k), PV.Chain(later, k));
    }
  }

  lemma ShownEvidence(w: World, n: NodeId, m: NodeId, msg: Message)
    requires m in w.state && ChainsOk(w) && CopiesOk(w) && Fits(w, n, m, msg)
    ensures var e := EvidenceOf(w, m, msg.updates);
            && AllPictured(w, m, e) && PV.WellFormed(e) && PV.WellPlaced(e)
            && forall k :: |PV.Chain(e, k).blocks| == if k in w.state then Covered(w, m, msg, k) else 0
  {
    var e := EvidenceOf(w, m, msg.updates);
    forall k
      ensures Pictured(w, m, k, PV.Chain(e, k)) && |PV.Chain(e, k).blocks| == if k in w.state then Covered(w, m, msg, k) else 0
    {
      ShownChain(w, n, m, msg, k);
    }
    EvidencePlaced(w, m, e);
  }

  lemma OwnShownEvidence(w: World, m: NodeId)
    requires m in w.state && ChainsOk(w) && CopiesOk(w)
    ensures var e := OwnEvidence(w, m);
            && AllPictured(w, m, e) && PV.WellFormed(e) && PV.WellPlaced(e)
            && forall k :: |PV.Chain(e, k).blocks| == if k in w.state then |Copy(w, m, k).blocks| else 0
  {
    var e := OwnEvidence(w, m);
    forall k
      ensures Pictured(w, m, k, PV.Chain(e, k)) && |PV.Chain(e, k).blocks| == if k in w.state then |Copy(w, m, k).blocks| else 0
    {
      OwnShownChain(w, m, k);
    }
    EvidencePlaced(w, m, e);
  }

  /** A message adds to what its receiver shows. */
  lemma HeadGrowsEvidence(w: World, n: NodeId, m: NodeId, msg: Message)
    requires m in w.state && ChainsOk(w) && CopiesOk(w) && Fits(w, n, m, msg)
    ensures EvidenceGrows(OwnEvidence(w, m), EvidenceOf(w, m, msg.updates))
  {
    OwnShownEvidence(w, m);
    ShownEvidence(w, n, m, msg);
    PicturesGrow(w, w, m, OwnEvidence(w, m), EvidenceOf(w, m, msg.updates));
  }

  /** A step that forgets nothing adds to what a node shows. */
  lemma StepGrowsEvidence(w: World, v: World, m: NodeId)
    requires m in w.state && m in v.state && ChainsOk(w) && CopiesOk(w) && ChainsOk(v) && CopiesOk(v)
    requires Grows(w, v) && MarksLast(w, v, m)
    ensures EvidenceGrows(OwnEvidence(w, m), OwnEvidence(v, m))
  {
    OwnShownEvidence(w, m);
    OwnShownEvidence(v, m);
    LengthsGrow(w, v, m, OwnEvidence(w, m), OwnEvidence(v, m));
    PicturesGrow(w, v, m, OwnEvidence(w, m), OwnEvidence(v, m));
  }

  lemma LengthsGrow(w: World, v: World, m: NodeId, e: PV.Evidence, later: PV.Evidence)
    requires Grows(w, v)
    requires forall k :: |PV.Chain(e, k).blocks| == if k in w.state then |Copy(w, m, k).blocks| else 0
    requires forall k :: |PV.Chain(later, k).blocks| == if k in v.state then |Copy(v, m, k).blocks| else 0
    ensures forall k :: |PV.Chain(e, k).blocks| <= |PV.Chain(later, k).blocks|
  {
    forall k
      ensures |PV.Chain(e, k).blocks| <= |PV.Chain(later, k).blocks|
    {
      assert |Copy(w, m, k).blocks| <= |Copy(v, m, k).blocks| && (k in w.state.Keys <==> k in v.state.Keys);
    }
  }

  /** Once a message is applied, the receiver shows without it what it showed with it. */
  lemma AppliedGrowsEvidence(w: World, n: NodeId, m: NodeId, v: World)
    requires Queue(w, n, m) != [] && Delivered(w, n, m, v) && m in w.state && m in v.state
    requires ChainsOk(w) && CopiesOk(w) && ChainsOk(v) && CopiesOk(v) && Fits(w, n, m, Queue(w, n, m)[0])
    ensures EvidenceGrows(EvidenceOf(w, m, Queue(w, n, m)[0].updates), OwnEvidence(v, m))
  {
    var msg := Queue(w, n, m)[0];
    DeliveredGrows(w, n, m, v);
    DeliveredMarks(w, n, m, v);
    ShownEvidence(w, n, m, msg);
    OwnShownEvidence(v, m);
    CoversGrow(w, v, m, msg, EvidenceOf(w, m, msg.updates), OwnEvidence(v, m));
    PicturesGrow(w, v, m, EvidenceOf(w, m, msg.updates), OwnEvidence(v, m));
  }

  lemma CoversGrow(w: World, v: World, m: NodeId, msg: Message, e: PV.Evidence, later: PV.Evidence)
    requires w.state.Keys == v.state.Keys && forall k :: |Copy(v, m, k).blocks| == Covered(w, m, msg, k)
    requires forall k :: |PV.Chain(e, k).blocks| == if k in w.state then Covered(w, m, msg, k) else 0
    requires forall k :: |PV.Chain(later, k).blocks| == if k in v.state then |Copy(v, m, k).blocks| else 0
    ensures forall k :: |PV.Chain(e, k).blocks| <= |PV.Chain(later, k).blocks|
  {
    forall k
      ensures |PV.Chain(e, k).blocks| <= |PV.Chain(later, k).blocks|
    {
      assert k in w.state.Keys <==> k in v.state.Keys;
    }
  }

  lemma DeliveredMarks(w: World, n: NodeId, m: NodeId, v: World)
    requires Queue(w, n, m) != [] && Delivered(w, n, m, v) && m in w.state && m in v.state
    requires CopiesOk(w) && CopiesOk(v) && Grows(w, v) && Fits(w, n, m, Queue(w, n, m)[0])
    ensures MarksLast(w, v, m)
  {
    forall k
      ensures PointersLast(Copy(w, m, k), Copy(v, m, k))
    {
      if k in w.state && k != m {
        assert k in v.state.Keys;
        assert CopyOk(w, m, k) && CopyOk(v, m, k);
        assert |Copy(w, m, k).blocks| <= |Copy(v, m, k).blocks|;
      } else {
        NoNewBlocks(w, n, m, v, k);
      }
    }
  }

  // ---- what a node keeps after a refusal ----

  /** `t` is in a copy of `m`: flags on transactions of dropped blocks are gone with them. */
  predicate Held(s: NodeState, t: Transaction) {
    FoundIn(s, map[], t)
  }

  /** Whatever shows, and is in our copies, verifies without the message that showed it. */
  lemma {:induction false} HeldVerifies(w: World, n: NodeId, m: NodeId, msg: Message, t: Transaction)
    requires m in w.state && ChainsOk(w) && CopiesOk(w) && TransactionsOk(w) && CopiesClosed(w)
    requires InSight(w, m, msg, t) && Held(w.state[m], t)
    ensures PV.WellFormed(OwnEvidence(w, m)) && PV.Verifies(OwnEvidence(w, m), t)
  {
    var none := Message(msg.main, map[]);
    assert InSight(w, m, none, t);
    assert Timely(w, m, none.updates);
    TimelyShowsCommits(w, n, m, none, t);
    VerifiesIff(w, n, m, none, t);
  }

  lemma {:induction false} HistoryInSight(w: World, n: NodeId, m: NodeId, msg: Message, t: Transaction, x: Transaction)
    requires m in w.state && ChainsOk(w) && TransactionsOk(w) && CopiesClosed(w) && Fits(w, n, m, msg) && ClosesSight(w, m, msg)
    requires InSight(w, m, msg, t) && InHistory(x, t)
    ensures InSight(w, m, msg, x)
    decreases t
  {
    if x != t {
      var s :| s in t.source && InHistory(x, s);
      assert t.sender.None? ==> GenesisOk(t);
      SourcesInSight(w, n, m, msg, t, s);
      HistoryInSight(w, n, m, msg, s, x);
    }
  }

  // ---- steps ----

  /** What a handled message, which showed `e`, may leave in the memory of its receiver, now in state `s`. */
  ghost predicate Recalled(e: PV.Evidence, msg: Message, accepted: bool, s: NodeState, before: Memory, after: Memory) {
    && PV.WellFormed(e)
    && (forall t | t in after.flags ::
          && (t in before.flags || InHistory(t, msg.main))
          && PV.Verifies(e, t) && Held(s, t))
    && if accepted then CacheGood(ViewsShown(e), after.cache) else after.cache == before.cache
  }

  /** What handling a decoded message may do to the memory of its receiver. */
  ghost predicate Recalls(w: World, n: NodeId, m: NodeId, before: Memory, after: Memory)
    requires Enabled(w, Receive(n, m))
  {
    var msg := Queue(w, n, m)[0];
    Recalled(EvidenceOf(w, m, msg.updates), msg, Protocol.Accepted(w, m, msg), AfterReceive(w, n, m).state[m], before, after)
  }

  /** Before each message that decodes, memory fits what the message shows, */
  lemma MemoryFitsHead(w: World, n: NodeId, m: NodeId, memory: Memory)
    requires Inv(w) && Enabled(w, Receive(n, m)) && Decodes(w, m, Queue(w, n, m)[0]) && MemoryOk(w, m, memory)
    ensures Fitting(EvidenceOf(w, m, Queue(w, n, m)[0].updates), memory)
  {
    assert ChannelOk(w, n, m);
    HeadFits(w, n, m);
    HeadGrowsEvidence(w, n, m, Queue(w, n, m)[0]);
    MemoryLasts(OwnEvidence(w, m), EvidenceOf(w, m, Queue(w, n, m)[0].updates), memory);
  }

  /** and afterwards it fits what the receiver then holds. */
  lemma RecallsKeeps(w: World, n: NodeId, m: NodeId, before: Memory, after: Memory)
    requires Inv(w) && Enabled(w, Receive(n, m)) && Decodes(w, m, Queue(w, n, m)[0])
    requires MemoryOk(w, m, before) && Recalls(w, n, m, before, after)
    ensures m in AfterReceive(w, n, m).state && MemoryOk(AfterReceive(w, n, m), m, after)
  {
    ReceiveKeeps(w, n, m);
    assert ChannelOk(w, n, m);
    HeadFits(w, n, m);
    if Protocol.Accepted(w, m, Queue(w, n, m)[0]) {
      AcceptedRecalls(w, n, m, after);
    } else {
      RefusedRecalls(w, n, m, before, after);
    }
  }

  lemma AcceptedRecalls(w: World, n: NodeId, m: NodeId, after: Memory)
    requires Inv(w) && Enabled(w, Receive(n, m)) && Protocol.Accepted(w, m, Queue(w, n, m)[0]) && MainOk(w, n, m, 0)
    requires Fits(w, n, m, Queue(w, n, m)[0]) && Fitting(EvidenceOf(w, m, Queue(w, n, m)[0].updates), after)
    requires Inv(AfterReceive(w, n, m))
    ensures m in AfterReceive(w, n, m).state && MemoryOk(AfterReceive(w, n, m), m, after)
  {
    var v := AfterReceive(w, n, m);
    DeliveredFacts(w, n, m);
    AppliedGrowsEvidence(w, n, m, v);
    MemoryLasts(EvidenceOf(w, m, Queue(w, n, m)[0].updates), OwnEvidence(v, m), after);
  }

  lemma RefusedRecalls(w: World, n: NodeId, m: NodeId, before: Memory, after: Memory)
    requires Inv(w) && Enabled(w, Receive(n, m)) && Decodes(w, m, Queue(w, n, m)[0])
    requires !Protocol.Accepted(w, m, Queue(w, n, m)[0]) && MemoryOk(w, m, before) && Recalls(w, n, m, before, after)
    requires Fits(w, n, m, Queue(w, n, m)[0]) && ClosesSight(w, m, Queue(w, n, m)[0])
    requires InSight(w, m, Queue(w, n, m)[0], Queue(w, n, m)[0].main)
    ensures m in AfterReceive(w, n, m).state && MemoryOk(AfterReceive(w, n, m), m, after)
  {
    var v, msg := AfterReceive(w, n, m), Queue(w, n, m)[0];
    RefusedShowsSame(w, n, m);
    forall t | t in after.flags
      ensures PV.Verifies(OwnEvidence(w, m), t)
    {
      if t !in before.flags {
        HistoryInSight(w, n, m, msg, msg.main, t);
        HeldVerifies(w, n, m, msg, t);
      }
    }
  }

  /** A refusal changes nothing that shows. */
  lemma RefusedShowsSame(w: World, n: NodeId, m: NodeId)
    requires Enabled(w, Receive(n, m)) && !Protocol.Accepted(w, m, Queue(w, n, m)[0])
    ensures var v := AfterReceive(w, n, m);
            m in v.state && OwnEvidence(v, m) == OwnEvidence(w, m)
            && forall t :: Held(v.state[m], t) == Held(w.state[m], t)
  {
    var v := AfterReceive(w, n, m);
    assert v.state.Keys == w.state.Keys;
    SameShows(w.state[m], v.state[m], w.state.Keys);
  }

  lemma SameShows(s: NodeState, s': NodeState, nodes: set<NodeId>)
    requires s'.copies == s.copies && s'.cache == s.cache
    ensures EvidenceIn(s', nodes, map[]) == EvidenceIn(s, nodes, map[])
    ensures forall t :: Held(s', t) == Held(s, t)
  {
    forall k
      ensures ShowsIn(s', k, map[]) == ShowsIn(s, k, map[])
    {
      SameShownChain(s, s', k, ShowsIn(s, k, map[]), ShowsIn(s', k, map[]));
    }
  }

  lemma SameShownChain(s: NodeState, s': NodeState, k: NodeId, c: PV.Shown, d: PV.Shown)
    requires s'.copies == s.copies && s'.cache == s.cache && c == ShowsIn(s, k, map[]) && d == ShowsIn(s', k, map[])
    ensures c == d
  {
    assert c.valid == d.valid && c.blocks == d.blocks && |c.marked| == |d.marked|;
    forall i | 0 <= i < |c.marked|
      ensures c.marked[i] == d.marked[i]
    {
      assert c.marked[i] == MarkedIn(s, CopyIn(s, k), c.blocks, i);
      assert d.marked[i] == MarkedIn(s', CopyIn(s', k), d.blocks, i);
    }
  }

  /** Memory along a step: it changes only when its node handles a message that decodes. */
  ghost predicate MemoryStep(w: World, a: Action, m: NodeId, before: Memory, after: Memory)
    requires Enabled(w, a)
  {
    if a.Receive? && a.to == m && Decodes(w, m, Queue(w, a.from, m)[0]) then Recalls(w, a.from, m, before, after)
    else after == before
  }

  lemma StepKeepsMemory(w: World, a: Action, m: NodeId, before: Memory, after: Memory)
    requires Inv(w) && Enabled(w, a) && m in w.state && MemoryOk(w, m, before) && MemoryStep(w, a, m, before, after)
    ensures m in Apply(w, a).state && MemoryOk(Apply(w, a), m, after)
  {
    if a.Receive? && a.to == m && Decodes(w, m, Queue(w, a.from, m)[0]) {
      RecallsKeeps(w, a.from, m, before, after);
    } else {
      StepKeeps(w, a);
      StepGrows(w, a);
      StepMarksLast(w, a, m);
      StepGrowsEvidence(w, Apply(w, a), m);
      MemoryLasts(OwnEvidence(w, m), OwnEvidence(Apply(w, a), m), before);
    }
  }

  /** A node whose state the step leaves alone forgets nothing. */
  lemma SameStateMarks(w: World, v: World, m: NodeId)
    requires m in w.state && m in v.state
    requires v.state[m].cache == w.state[m].cache && v.state[m].copies == w.state[m].copies
    ensures MarksLast(w, v, m)
  {
    forall k
      ensures Copy(v, m, k) == Copy(w, m, k)
    {
    }
  }

  lemma StepGrows(w: World, a: Action)
    requires Inv(w) && Enabled(w, a)
    ensures Grows(w, Apply(w, a))
  {
    match a
    case Create(n, r, amount, sources) => CreateFacts(w, n, r, amount, sources);
    case AppendEmpty(n) => AppendEmptyFacts(w, n);
    case Commit(n, reaches) =>
      assert CopyOk(w, n, n);
      CommitFacts(w, n, reaches);
    case Learn(n, block) =>
      assert CopyOk(w, n, n);
      LearnFacts(w, n, block);
    case Recognise(n, k, b) =>
      assert k in w.state[n].copies;
      assert CopyOk(w, n, k);
      RecogniseFacts(w, n, k, b);
    case SendNext(n, updates) => SendGrows(w, n, updates);
    case SendFails(n) => PassedGrows(w, n);
    case Receive(from, to) => ReceiveGrows(w, from, to);
  }

  lemma SendGrows(w: World, n: NodeId, updates: PC.Family)
    requires Inv(w) && MaySend(w, n)
    ensures Grows(w, AfterSend(w, n, updates))
  {
    var p, ts := Passed(w, n), Own(w, n)[Sent(w, n) + 1].transactions;
    assert AfterSend(w, n, updates) == Shipped(p, n, ts, updates);
    PassedGrows(w, n);
    ShippedGrows(w, p, n, ts, updates);
  }

  lemma ShippedGrows(w: World, p: World, n: NodeId, ts: seq<Transaction>, updates: PC.Family)
    requires n in p.state && Grows(w, p)
    ensures Grows(w, Shipped(p, n, ts, updates))
  {
    if ts != [] {
      PostGrows(w, p, n, ts[0].receiver, Message(ts[0], updates));
    }
  }

  lemma PassedGrows(w: World, n: NodeId)
    requires Inv(w) && MaySend(w, n)
    ensures Grows(w, Passed(w, n))
  {
    assert CopyOk(w, n, n);
    PassedFacts(w, n);
  }

  lemma PostGrows(w: World, p: World, n: NodeId, r: NodeId, msg: Message)
    requires n in p.state && Grows(w, p)
    ensures Grows(w, Post(p, n, r, msg))
  {
    PostFacts(p, n, r, msg);
    GrowsOn(w, p, Post(p, n, r, msg));
  }

  lemma GrowsOn(w: World, p: World, v: World)
    requires Grows(w, p) && Grows(p, v)
    ensures Grows(w, v)
  {
    forall k
      ensures Own(w, k) <= Own(v, k)
    {
      assert Own(w, k) <= Own(p, k) <= Own(v, k);
    }
    forall n, k
      ensures |Copy(w, n, k).blocks| <= |Copy(v, n, k).blocks|
    {
      assert |Copy(w, n, k).blocks| <= |Copy(p, n, k).blocks| <= |Copy(v, n, k).blocks|;
    }
  }

  lemma ReceiveGrows(w: World, from: NodeId, to: NodeId)
    requires Inv(w) && Enabled(w, Receive(from, to))
    ensures Grows(w, AfterReceive(w, from, to))
  {
    HeadIsOk(w, from, to);
    if Protocol.Accepted(w, to, Queue(w, from, to)[0]) {
      assert ChannelOk(w, from, to);
      HeadFits(w, from, to);
      DeliveredFacts(w, from, to);
      DeliveredGrows(w, from, to, AfterReceive(w, from, to));
    } else {
      ShedFacts(w, from, to);
    }
  }

  /** Only a message that decodes can take anything away from what its receiver remembers. */
  lemma StepMarksLast(w: World, a: Action, m: NodeId)
    requires Inv(w) && Enabled(w, a) && m in w.state
    requires !(a.Receive? && a.to == m && Decodes(w, m, Queue(w, a.from, m)[0]))
    ensures m in Apply(w, a).state && MarksLast(w, Apply(w, a), m)
  {
    match a
    case Create(n, r, amount, sources) =>
      CreateFacts(w, n, r, amount, sources);
      ExtendedMarks(w, n, [NewTransaction(w, n, r, amount, sources)], Apply(w, a), m);
    case AppendEmpty(n) =>
      AppendEmptyFacts(w, n);
      ExtendedMarks(w, n, [], Apply(w, a), m);
    case Commit(n, reaches) => CommitMarks(w, n, reaches, m);
    case Learn(n, block) => LearnMarks(w, n, block, m);
    case Recognise(n, k, b) => RecogniseMarks(w, n, k, b, m);
    case SendNext(n, updates) => SendMarks(w, n, updates, m);
    case SendFails(n) => SameStateMarks(w, Passed(w, n), m);
    case Receive(from, to) =>
      ReceiveLeaves(w, from, to, m);
      SameStateMarks(w, AfterReceive(w, from, to), m);
  }

  lemma ExtendedMarks(w: World, n: NodeId, ts: seq<Transaction>, v: World, m: NodeId)
    requires Extended(w, n, ts, v) && m in w.state && m in v.state
    ensures MarksLast(w, v, m)
  {
  }

  lemma CommitMarks(w: World, n: NodeId, reaches: bool, m: NodeId)
    requires Enabled(w, Commit(n, reaches)) && m in w.state
    ensures MarksLast(w, AfterCommit(w, n, reaches), m)
  {
  }

  lemma LearnMarks(w: World, n: NodeId, block: Block, m: NodeId)
    requires Enabled(w, Learn(n, block)) && m in w.state
    ensures MarksLast(w, Apply(w, Learn(n, block)), m)
  {
  }

  lemma RecogniseMarks(w: World, n: NodeId, k: NodeId, b: nat, m: NodeId)
    requires Enabled(w, Recognise(n, k, b)) && m in w.state
    ensures MarksLast(w, AfterRecognise(w, n, k, b), m)
  {
  }

  lemma SendMarks(w: World, n: NodeId, updates: PC.Family, m: NodeId)
    requires MaySend(w, n) && m in w.state
    ensures m in AfterSend(w, n, updates).state && MarksLast(w, AfterSend(w, n, updates), m)
  {
    SameStateMarks(w, AfterSend(w, n, updates), m);
  }

  /** The state of a node that handles no message, or drops one, stays as it is. */
  lemma ReceiveLeaves(w: World, from: NodeId, to: NodeId, m: NodeId)
    requires Enabled(w, Receive(from, to)) && m in w.state
    requires m == to ==> !Decodes(w, m, Queue(w, from, m)[0])
    ensures m in AfterReceive(w, from, to).state && AfterReceive(w, from, to).state[m] == w.state[m]
  {
  }

  // ---- runs ----

  /** A run together with the memory of one node at every moment. */
  ghost predicate MemoryRun(w: World, actions: seq<Action>, m: NodeId, memories: seq<Memory>)
    requires IsRun(w, actions)
    decreases |actions|
  {
    && |memories| == |actions| + 1
    && (actions == [] ||
          (MemoryStep(w, actions[0], m, memories[0], memories[1])
           && MemoryRun(Apply(w, actions[0]), actions[1..], m, memories[1..])))
  }

  lemma {:induction false} RunKeepsMemory(w: World, actions: seq<Action>, m: NodeId, memories: seq<Memory>)
    requires Inv(w) && IsRun(w, actions) && m in w.state && MemoryRun(w, actions, m, memories) && MemoryOk(w, m, memories[0])
    ensures m in Outcome(w, actions).state && MemoryOk(Outcome(w, actions), m, memories[|actions|])
    decreases |actions|
  {
    if actions != [] {
      StepKeeps(w, actions[0]);
      StepKeepsMemory(w, actions[0], m, memories[0], memories[1]);
      RunKeepsMemory(Apply(w, actions[0]), actions[1..], m, memories[1..]);
    }
  }

  /** In every run, from an empty memory: whenever a message is decoded, every flag and every
      cached verdict of its receiver is what the plain recursions would find. */
  lemma {:induction false} MemoryIsRight(w: World, actions: seq<Action>, v: World, n: NodeId, m: NodeId, memories: seq<Memory>)
    requires Init(w) && IsRun(w, actions) && v == Outcome(w, actions) && m in w.state
    requires MemoryRun(w, actions, m, memories) && memories[0] == Memory({}, map[])
    requires Enabled(v, Receive(n, m)) && Decodes(v, m, Queue(v, n, m)[0])
    ensures Fitting(EvidenceOf(v, m, Queue(v, n, m)[0].updates), memories[|actions|])
  {
    MemoryAtEnd(w, actions, v, m, memories);
    MemoryFitsHead(v, n, m, memories[|actions|]);
  }

  lemma {:induction false} MemoryAtEnd(w: World, actions: seq<Action>, v: World, m: NodeId, memories: seq<Memory>)
    requires Init(w) && IsRun(w, actions) && v == Outcome(w, actions) && m in w.state
    requires MemoryRun(w, actions, m, memories) && memories[0] == Memory({}, map[])
    ensures Inv(v) && m in v.state && MemoryOk(v, m, memories[|actions|])
  {
    InitHolds(w);
    EvidenceWellFormed(w.state[m], w.state.Keys, map[]);
    RunKeepsMemory(w, actions, m, memories);
    RunKeeps(w, actions);
  }
}
