/** Delivery: of a message that decodes, verification and validation come down to the
    commits that its receiver can see. */
module ProtocolDelivery {
  import opened Ledger
  import opened ChainReach
  import opened Replicas
  import CR = ChainReplication
  import opened ChainViews
  import opened Validation
  import opened Protocol
  import opened ProtocolInvariant
  import opened ProtocolSteps
  import opened ProtocolSend
  import PC = ProofConstruction
  import PV = ProofVerification

  // ---- what the receiver sees ----

  /** How much of chain `k` shows with the message. */
  function Covered(w: World, m: NodeId, msg: Message, k: NodeId): nat {
    Max(|Copy(w, m, k).blocks|, SegmentEnd(msg, k))
  }

  /** Its segments fit onto the copies of `m`, and end on the main chain. */
  ghost predicate Fits(w: World, n: NodeId, m: NodeId, msg: Message) {
    forall k | k in msg.updates :: SegmentOk(w, n, m, k, msg.updates[k], |Copy(w, m, k).blocks|)
  }

  lemma SegmentNumbers(w: World, n: NodeId, m: NodeId, k: NodeId, u: seq<Block>, limit: nat)
    requires SegmentOk(w, n, m, k, u, limit) && OwnChainOk(w, k)
    ensures forall i | 0 <= i < |u| :: u[i] == Own(w, k)[u[0].number + i] && u[i].number == u[0].number + i
  {
  }

  lemma SegmentAt(w: World, n: NodeId, m: NodeId, k: NodeId, u: seq<Block>, limit: nat, b: nat)
    requires SegmentOk(w, n, m, k, u, limit) && OwnChainOk(w, k) && u[0].number <= b < u[0].number + |u|
    ensures b < |Own(w, k)| && u[b - u[0].number] == Own(w, k)[b]
  {
  }

  /** A piece of a chain that starts within a prefix of it extends the prefix consistently. */
  lemma PrefixView(chain: seq<Block>, own: seq<Block>, u: seq<Block>)
    requires Numbered(chain) && own <= chain
    requires u != [] ==> u[0].number <= |own| && u[0].number + |u| <= |chain|
    requires forall i | 0 <= i < |u| :: u[i] == chain[u[0].number + i]
    ensures Consistent(own, u)
    ensures var len := if u == [] then |own| else Max(|own|, u[0].number + |u|);
            && own + From(u, Overlap(own, u)) == chain[..len]
            && (u != [] ==> u[|u| - 1].number == u[0].number + |u| - 1)
  {
  }

  lemma ShowsConsistent(w: World, m: NodeId, k: NodeId, updates: PC.Family)
    requires m in w.state && Consistent(Copy(w, m, k).blocks, UpdateOf(updates, k))
    ensures var s, c, u := Shows(w, m, k, updates), Copy(w, m, k), UpdateOf(updates, k);
            && s.valid && s.blocks == c.blocks + From(u, Overlap(c.blocks, u)) && |s.marked| == |s.blocks|
            && forall i | 0 <= i < |s.blocks| :: s.marked[i] == Marked(w, m, c, s.blocks, i)
  {
  }

  /** No received segment leaves a gap: every view is valid and shows a prefix of the chain. */
  lemma ShowsPrefix(w: World, n: NodeId, m: NodeId, msg: Message, k: NodeId)
    requires m in w.state && k in w.state && OwnChainOk(w, k) && CopyOk(w, m, k) && Fits(w, n, m, msg)
    ensures var c := Shows(w, m, k, msg.updates);
            && c.valid && Covered(w, m, msg, k) <= |Own(w, k)|
            && c.blocks == Own(w, k)[..Covered(w, m, msg, k)]
            && |c.marked| == |c.blocks|
            && forall i | 0 <= i < |c.blocks| :: c.marked[i] == Marked(w, m, Copy(w, m, k), c.blocks, i)
  {
    var u := UpdateOf(msg.updates, k);
    if u != [] {
      assert SegmentOk(w, n, m, k, u, |Copy(w, m, k).blocks|);
    }
    PrefixView(Own(w, k), Copy(w, m, k).blocks, u);
    ShowsConsistent(w, m, k, msg.updates);
  }

  // ---- what is within sight ----

  /** `t` shows in its chain; of our own transactions we only meet those we have sent. */
  ghost predicate InSight(w: World, m: NodeId, msg: Message, t: Transaction) {
    if t.sender.None? then t in w.genesis.transactions && t.receiver in w.state && Covered(w, m, msg, t.receiver) > 0
    else
      && InChain(w, t) && t.block < Covered(w, m, msg, t.sender.value)
      && (t.sender == Some(m) ==> t.block <= Sent(w, m))
  }

  /** The message closes what the receiver has. */
  ghost predicate ClosesSight(w: World, m: NodeId, msg: Message) {
    forall t, s | InChain(w, t) && s in t.source && Carries(msg, t.sender.value, t.block)
                  && s.sender.Some? && s.sender != Some(m) :: s.block < Covered(w, m, msg, s.sender.value)
  }

  /** Within sight are also the sources, down to genesis. */
  lemma SourcesInSight(w: World, n: NodeId, m: NodeId, msg: Message, t: Transaction, s: Transaction)
    requires m in w.state && ChainsOk(w) && TransactionsOk(w) && CopiesClosed(w) && Fits(w, n, m, msg) && ClosesSight(w, m, msg)
    requires t.sender.Some? && InSight(w, m, msg, t) && s in t.source
    ensures InSight(w, m, msg, s)
  {
    assert OwnChainOk(w, t.sender.value);
    assert TransactionOk(w, t) && Spendable(w, t.sender.value, s);
    if s.sender.Some? && s.sender != Some(m) {
      assert CopyClosed(w, m, t, s);
      SourceCovered(w, n, m, msg, t, s);
    }
  }

  /** A foreign source is in the receiver's copy, or comes with the message. */
  lemma SourceCovered(w: World, n: NodeId, m: NodeId, msg: Message, t: Transaction, s: Transaction)
    requires t.sender.Some? && InSight(w, m, msg, t) && s in t.source && s.sender.Some? && s.sender != Some(m)
    requires OwnChainOk(w, t.sender.value) && CopyClosed(w, m, t, s) && Fits(w, n, m, msg) && ClosesSight(w, m, msg)
    ensures s.block < Covered(w, m, msg, s.sender.value)
  {
    var k := t.sender.value;
    if t.block >= |Copy(w, m, k).blocks| {
      var u := UpdateOf(msg.updates, k);
      assert SegmentOk(w, n, m, k, u, |Copy(w, m, k).blocks|);
      SegmentNumbers(w, n, m, k, u, |Copy(w, m, k).blocks|);
      assert Carries(msg, k, t.block);
    }
  }

  // ---- verification ----

  /** Some block at or after block `b` of chain `k` is marked as committed. */
  ghost predicate CommitShows(w: World, m: NodeId, msg: Message, t: Transaction)
    requires m in w.state
  {
    t.sender.Some? ==>
      exists i :: t.block <= i < Covered(w, m, msg, t.sender.value) <= |Own(w, t.sender.value)|
                  && Marked(w, m, Copy(w, m, t.sender.value), Own(w, t.sender.value), i)
  }

  /** That holds for `t` and its whole history. */
  ghost predicate CommitsShow(w: World, m: NodeId, msg: Message, t: Transaction)
    requires m in w.state
  {
    CommitShows(w, m, msg, t) && forall s | s in t.source :: CommitsShow(w, m, msg, s)
  }

  /** A chain transaction occurs in exactly one block. */
  lemma OccursOnce(w: World, t: Transaction, len: nat)
    requires t.sender.Some? && t.sender.value in w.state && OwnChainOk(w, t.sender.value) && GenesisBlockOk(w.genesis)
    requires InChain(w, t) && t.block < len <= |Own(w, t.sender.value)|
    ensures PV.SeenOnlyAt(Own(w, t.sender.value)[..len], t, t.block)
  {
    var c := Own(w, t.sender.value);
    forall j | 0 <= j < len && j != t.block
      ensures !Contains(c[..len][j], t)
    {
      assert c[..len][j] == c[j];
    }
  }

  lemma MarkShows(w: World, n: NodeId, m: NodeId, msg: Message, t: Transaction)
    requires m in w.state && t.sender.Some? && t.sender.value in w.state
    requires OwnChainOk(w, t.sender.value) && CopyOk(w, m, t.sender.value) && Fits(w, n, m, msg)
    ensures var c := Shows(w, m, t.sender.value, msg.updates);
            |c.marked| == |c.blocks| && (PV.MarkedFrom(c, t.block) <==> CommitShows(w, m, msg, t))
  {
    var k := t.sender.value;
    var c := Shows(w, m, k, msg.updates);
    ShowsPrefix(w, n, m, msg, k);
    forall i | 0 <= i < |c.blocks|
      ensures c.blocks[i] == Own(w, k)[i] && c.blocks[i].number == i
      ensures c.marked[i] == Marked(w, m, Copy(w, m, k), Own(w, k), i)
    {
    }
    if PV.MarkedFrom(c, t.block) {
      var i :| 0 <= i < |c.blocks| && c.blocks[i].number >= t.block && c.marked[i];
      assert t.block <= i < Covered(w, m, msg, k);
    }
  }

  lemma ChainOfEvidence(w: World, m: NodeId, k: NodeId, updates: PC.Family)
    requires m in w.state && k in w.state
    ensures PV.WellFormed(EvidenceOf(w, m, updates)) && PV.Chain(EvidenceOf(w, m, updates), k) == Shows(w, m, k, updates)
  {
    EvidenceWellFormed(w.state[m], w.state.Keys, updates);
  }

  /** For a message of an honest run, verification succeeds exactly when a commit shows
      for every transaction in the history of the one sent. */
  lemma {:induction false} VerifiesIff(w: World, n: NodeId, m: NodeId, msg: Message, t: Transaction)
    requires m in w.state && ChainsOk(w) && CopiesOk(w) && TransactionsOk(w) && CopiesClosed(w)
    requires Fits(w, n, m, msg) && ClosesSight(w, m, msg) && InSight(w, m, msg, t)
    ensures PV.WellFormed(EvidenceOf(w, m, msg.updates))
    ensures PV.Verifies(EvidenceOf(w, m, msg.updates), t) <==> CommitsShow(w, m, msg, t)
    decreases t
  {
    var e, k := EvidenceOf(w, m, msg.updates), Home(t);
    assert OwnChainOk(w, k) && CopyOk(w, m, k);
    ChainOfEvidence(w, m, k, msg.updates);
    if t.sender.None? {
      ShowsPrefix(w, n, m, msg, k);
      assert t.source == {};
      assert Own(w, k)[..Covered(w, m, msg, k)][0] == w.genesis;
    } else {
      ChainVerifiesIff(w, n, m, msg, t);
      forall s | s in t.source
        ensures PV.Verifies(e, s) <==> CommitsShow(w, m, msg, s)
      {
        SourcesInSight(w, n, m, msg, t, s);
        VerifiesIff(w, n, m, msg, s);
      }
    }
  }

  lemma ChainVerifiesIff(w: World, n: NodeId, m: NodeId, msg: Message, t: Transaction)
    requires m in w.state && t.sender.Some? && t.sender.value in w.state && GenesisBlockOk(w.genesis)
    requires OwnChainOk(w, t.sender.value) && CopyOk(w, m, t.sender.value) && Fits(w, n, m, msg) && InSight(w, m, msg, t)
    ensures var c := Shows(w, m, t.sender.value, msg.updates);
            && |c.blocks| == |c.marked|
            && (c.valid && PV.SeenOnce(c.blocks, t) && PV.MarkedFrom(c, t.block) <==> CommitShows(w, m, msg, t))
  {
    ShowsPrefix(w, n, m, msg, t.sender.value);
    OccursOnce(w, t, Covered(w, m, msg, t.sender.value));
    MarkShows(w, n, m, msg, t);
  }

  /** When the end of every segment has been seen on the main chain, commits show everywhere. */
  lemma {:induction false} TimelyShowsCommits(w: World, n: NodeId, m: NodeId, msg: Message, t: Transaction)
    requires m in w.state && ChainsOk(w) && CopiesOk(w) && TransactionsOk(w) && CopiesClosed(w)
    requires Fits(w, n, m, msg) && ClosesSight(w, m, msg) && InSight(w, m, msg, t)
    requires Timely(w, m, msg.updates)
    ensures CommitsShow(w, m, msg, t)
  {
    if t.sender.Some? {
      TimelyShowsCommit(w, n, m, msg, t);
    } else {
      assert t.source == {};
    }
    forall s | s in t.source
      ensures CommitsShow(w, m, msg, s)
    {
      SourcesInSight(w, n, m, msg, t, s);
      TimelyShowsCommits(w, n, m, msg, s);
    }
  }

  lemma TimelyShowsCommit(w: World, n: NodeId, m: NodeId, msg: Message, t: Transaction)
    requires m in w.state && t.sender.Some? && t.sender.value in w.state
    requires OwnChainOk(w, t.sender.value) && CopyOk(w, m, t.sender.value) && Fits(w, n, m, msg)
    requires InSight(w, m, msg, t) && Timely(w, m, msg.updates)
    ensures CommitShows(w, m, msg, t)
  {
    var k := t.sender.value;
    var c := Copy(w, m, k);
    ShowsPrefix(w, n, m, msg, k);
    if t.block < |c.blocks| {
      assert Marked(w, m, c, Own(w, k), t.block);
    } else {
      var u := msg.updates[k];
      assert SegmentOk(w, n, m, k, u, |c.blocks|);
      var last := u[0].number + |u| - 1;
      SegmentAt(w, n, m, k, u, |c.blocks|, last);
      assert Marked(w, m, c, Own(w, k), last);
    }
  }

  // ---- validation ----

  /** No two transactions of a chain share a source, so no scan of a prefix finds a clash. */
  lemma {:induction false} NoClashInPrefix(w: World, k: NodeId, from: nat, len: nat, t: Transaction)
    requires k in w.state && OwnChainOk(w, k) && GenesisBlockOk(w.genesis) && SpentOnce(w)
    requires InChain(w, t) && t.sender == Some(k) && from <= len <= |Own(w, k)|
    ensures NoDoubleSpend(From(Own(w, k)[..len], from), t)
    decreases len - from
  {
    var view := From(Own(w, k)[..len], from);
    if from < len {
      assert view[0] == Own(w, k)[from] && view[1..] == From(Own(w, k)[..len], from + 1);
      forall u | u in view[0].transactions
        ensures u == t || u.source !! t.source
      {
        if from > 0 {
          assert InChain(w, u);
        }
      }
      NoClashInPrefix(w, k, from + 1, len, t);
    }
  }

  lemma {:induction false} Validates(w: World, n: NodeId, m: NodeId, msg: Message, t: Transaction)
    requires m in w.state && ChainsOk(w) && CopiesOk(w) && TransactionsOk(w) && CopiesClosed(w) && SpentOnce(w)
    requires Fits(w, n, m, msg) && ClosesSight(w, m, msg) && InSight(w, m, msg, t)
    ensures Accepts(ViewsOf(w, m, msg.updates), t)
  {
    if t.sender.Some? {
      var k := t.sender.value;
      assert OwnChainOk(w, k) && CopyOk(w, m, k) && TransactionOk(w, t);
      ShowsPrefix(w, n, m, msg, k);
      var len := Covered(w, m, msg, k);
      assert View(ViewsOf(w, m, msg.updates), k) == Own(w, k)[..len];
      NoClashInPrefix(w, k, 0, len, t);
      forall s | s in t.source
        ensures Accepts(ViewsOf(w, m, msg.updates), s)
      {
        SourcesInSight(w, n, m, msg, t, s);
        Validates(w, n, m, msg, s);
      }
    }
  }

  // ---- end to end ----

  /** A message that decodes fits onto the receiver's copies, and closes them. */
  lemma HeadFits(w: World, n: NodeId, m: NodeId)
    requires m in w.state && ChainsOk(w) && CopiesOk(w)
    requires ChannelOk(w, n, m) && Queue(w, n, m) != [] && Decodes(w, m, Queue(w, n, m)[0])
    ensures Fits(w, n, m, Queue(w, n, m)[0]) && ClosesSight(w, m, Queue(w, n, m)[0])
    ensures InSight(w, m, Queue(w, n, m)[0], Queue(w, n, m)[0].main)
    ensures MainOk(w, n, m, 0)
  {
    var msg := Queue(w, n, m)[0];
    assert MessageOk(w, n, m, 0);
    forall k | k in msg.updates
      ensures SegmentOk(w, n, m, k, msg.updates[k], |Copy(w, m, k).blocks|)
    {
      assert AttachesIn(w.state[m], msg.updates, k);
    }
    assert OwnChainOk(w, n);
    FoundIsCovered(w, n, m, msg, msg.main);
    forall t, s | InChain(w, t) && s in t.source && Carries(msg, t.sender.value, t.block)
                  && s.sender.Some? && s.sender != Some(m)
      ensures s.block < Covered(w, m, msg, s.sender.value)
    {
      CarriedSourceFound(w, n, m, msg, t, s);
    }
  }

  lemma FoundIsCovered(w: World, n: NodeId, m: NodeId, msg: Message, t: Transaction)
    requires m in w.state && Fits(w, n, m, msg) && ChainsOk(w) && FoundIn(w.state[m], msg.updates, t)
    ensures t.block < Covered(w, m, msg, Home(t))
  {
    var k := Home(t);
    if t.block >= |Copy(w, m, k).blocks| {
      assert SegmentOk(w, n, m, k, msg.updates[k], |Copy(w, m, k).blocks|) && OwnChainOk(w, k);
      SegmentNumbers(w, n, m, k, msg.updates[k], |Copy(w, m, k).blocks|);
    }
  }

  lemma CarriedSourceFound(w: World, n: NodeId, m: NodeId, msg: Message, t: Transaction, s: Transaction)
    requires m in w.state && Fits(w, n, m, msg) && ChainsOk(w) && Decodes(w, m, msg)
    requires InChain(w, t) && s in t.source && Carries(msg, t.sender.value, t.block)
    ensures s.block < Covered(w, m, msg, Home(s))
  {
    var k := t.sender.value;
    var u, limit := msg.updates[k], |Copy(w, m, k).blocks|;
    assert SegmentOk(w, n, m, k, u, limit) && OwnChainOk(w, k);
    SegmentAt(w, n, m, k, u, limit, t.block);
    DecodedSource(w.state[m], msg, k, t.block - u[0].number, t, s);
    FoundIsCovered(w, n, m, msg, s);
  }

  lemma DecodedSource(state: NodeState, msg: Message, k: NodeId, i: nat, t: Transaction, s: Transaction)
    requires DecodesIn(state, msg) && k in msg.updates && i < |msg.updates[k]|
    requires t in msg.updates[k][i].transactions && s in t.source
    ensures FoundIn(state, msg.updates, s)
  {
  }

  /** The first message of a channel, when it decodes, is accepted exactly when its receiver
      can see a commit for every transaction in its history, */
  lemma {:induction false} HeadAcceptedIff(w: World, n: NodeId, m: NodeId)
    requires Inv(w) && m in w.state && Queue(w, n, m) != [] && Decodes(w, m, Queue(w, n, m)[0])
    ensures var msg := Queue(w, n, m)[0];
            Protocol.Accepted(w, m, msg) <==> CommitsShow(w, m, msg, msg.main)
  {
    var msg := Queue(w, n, m)[0];
    assert ChannelOk(w, n, m);
    HeadFits(w, n, m);
    VerifiesIff(w, n, m, msg, msg.main);
    Validates(w, n, m, msg, msg.main);
  }

  /** and so always when the end of each of its segments has reached the receiver's cache. */
  lemma EndToEnd(w: World, n: NodeId, m: NodeId)
    requires Inv(w) && m in w.state && Queue(w, n, m) != [] && Decodes(w, m, Queue(w, n, m)[0])
    requires Timely(w, m, Queue(w, n, m)[0].updates)
    ensures Protocol.Accepted(w, m, Queue(w, n, m)[0])
  {
    var msg := Queue(w, n, m)[0];
    assert ChannelOk(w, n, m);
    HeadFits(w, n, m);
    TimelyShowsCommits(w, n, m, msg, msg.main);
    HeadAcceptedIff(w, n, m);
  }
}
