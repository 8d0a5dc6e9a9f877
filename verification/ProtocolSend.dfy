/** Sending the next block keeps the protocol invariant. */
module ProtocolSend {
  import opened Ledger
  import opened ChainReach
  import opened Replicas
  import opened ChainReplication
  import opened Validation
  import opened Protocol
  import opened ProtocolInvariant
  import opened ProtocolSteps
  import PC = ProofConstruction

  // ---- the proof builder never fails on a reachable world ----

  /** Whatever a node is about to send, the proof builder's demands are met. */
  lemma SendReady(w: World, n: NodeId, r: NodeId)
    requires Inv(w) && n in w.state && MaySend(w, n)
    ensures SettingOf(w, n, r).WellFormed()
    ensures var c, b := Copy(w, n, n), Sent(w, n) + 1;
            SettingOf(w, n, r).Chain(n) == c && |c.next| == |c.blocks| && b <= c.next[b] < |c.blocks|
  {
    var s0 := SettingOf(w, n, r);
    assert CopyOk(w, n, n);
    forall k, b, t, s | s0.InBlock(k, b, t) && s in t.source && !s0.Skips(s)
      ensures s0.Located(s)
    {
      SourceLocated(w, n, r, k, b, t, s);
    }
  }

  lemma ChainIsCopy(w: World, n: NodeId, r: NodeId, k: NodeId)
    requires n in w.state
    ensures SettingOf(w, n, r).Chain(k) == Copy(w, n, k)
  {
  }

  /** A transaction in a copy is in the chain, at that place. */
  lemma InCopy(w: World, n: NodeId, r: NodeId, k: NodeId, b: nat, t: Transaction)
    requires ChainsOk(w) && CopiesOk(w) && n in w.state && SettingOf(w, n, r).InBlock(k, b, t)
    ensures k in w.state && b < |Own(w, k)| && t in Own(w, k)[b].transactions
    ensures if b == 0 then t.source == {} else InChain(w, t) && t.sender == Some(k) && t.block == b
  {
    assert k in w.state[n].copies;
    assert CopyOk(w, n, k) && OwnChainOk(w, k);
    assert Own(w, k)[b] == Copy(w, n, k).blocks[b];
  }

  lemma SourceLocated(w: World, n: NodeId, r: NodeId, k: NodeId, b: nat, t: Transaction, s: Transaction)
    requires ChainsOk(w) && CopiesOk(w) && TransactionsOk(w) && CopiesClosed(w) && n in w.state
    requires SettingOf(w, n, r).InBlock(k, b, t) && s in t.source && !SettingOf(w, n, r).Skips(s)
    ensures SettingOf(w, n, r).Located(s) && s.block < SettingOf(w, n, r).Needed(s)
  {
    InCopy(w, n, r, k, b, t);
    var o := s.sender.value;
    assert TransactionOk(w, t) && Spendable(w, k, s);
    assert CopyClosed(w, n, t, s);
    assert CopyOk(w, n, o);
  }

  // ---- the new message ----

  /** `v` is `w` after message `msg` has been queued from `n` to `r`. */
  ghost predicate Posted(w: World, n: NodeId, r: NodeId, msg: Message, v: World) {
    && Grows(w, v) && SameChains(w, v) && v.mainChain == w.mainChain
    && (forall a, k :: Copy(w, a, k) == Copy(v, a, k))
    && (forall a :: Received(w, a) == Received(v, a) && Unspent(w, a) == Unspent(v, a) && Sent(w, a) == Sent(v, a))
    && (forall a | a in v.state :: a in w.state && v.state[a].cache == w.state[a].cache && v.state[a].copies == w.state[a].copies)
    && (forall a, b | !(a == n && b == r) :: Known(v, a, b) == Known(w, a, b) && Queue(v, a, b) == Queue(w, a, b))
    && Queue(v, n, r) == Queue(w, n, r) + [msg]
    && forall k :: LastKnown(Known(v, n, r), k) == Learned(Known(w, n, r), r, msg.updates, k)
  }

  lemma LearnFromIsLearned(before: Knowledge, peer: NodeId, updates: PC.Family, k: NodeId)
    ensures LastKnown(LearnFrom(before, peer, updates), k) == Learned(before, peer, updates, k)
  {
  }

  lemma PostFacts(w: World, n: NodeId, r: NodeId, msg: Message)
    requires n in w.state
    ensures Posted(w, n, r, msg, Post(w, n, r, msg))
  {
    PostKnown(w, n, r, msg);
    PostCopies(w, n, r, msg);
  }

  lemma PostKnown(w: World, n: NodeId, r: NodeId, msg: Message)
    requires n in w.state
    ensures var v := Post(w, n, r, msg);
            && (forall a, b | !(a == n && b == r) :: Known(v, a, b) == Known(w, a, b) && Queue(v, a, b) == Queue(w, a, b))
            && Queue(v, n, r) == Queue(w, n, r) + [msg]
            && forall k :: LastKnown(Known(v, n, r), k) == Learned(Known(w, n, r), r, msg.updates, k)
  {
    forall k: NodeId
      ensures LastKnown(Known(Post(w, n, r, msg), n, r), k) == Learned(Known(w, n, r), r, msg.updates, k)
    {
      LearnFromIsLearned(Known(w, n, r), r, msg.updates, k);
    }
  }

  lemma PostCopies(w: World, n: NodeId, r: NodeId, msg: Message)
    requires n in w.state
    ensures var v := Post(w, n, r, msg);
            && Grows(w, v) && SameChains(w, v) && v.mainChain == w.mainChain
            && (forall a, k :: Copy(w, a, k) == Copy(v, a, k))
            && (forall a :: Received(w, a) == Received(v, a) && Unspent(w, a) == Unspent(v, a) && Sent(w, a) == Sent(v, a))
            && forall a | a in v.state :: a in w.state && v.state[a].cache == w.state[a].cache && v.state[a].copies == w.state[a].copies
  {
  }

  /** What the sender knows of a proof it built for its next transaction `t`. */
  ghost predicate Proven(w: World, n: NodeId, t: Transaction, updates: PC.Family) {
    && n in w.state && InChain(w, t) && t.sender == Some(n) && t.block <= Sent(w, n)
    && var c := Copy(w, n, n);
       && t.block < |c.next| && t.block <= c.next[t.block] < |c.blocks|
       && PC.Proves(SettingOf(w, n, t.receiver), t.block, updates)
  }

  lemma ProofIsFamily(w: World, n: NodeId, t: Transaction, f: PC.Family)
    requires Proven(w, n, t, f)
    ensures var s0 := SettingOf(w, n, t.receiver);
            PC.IsFamily(s0, f) && PC.EndsCommitted(s0, f) && PC.Closed(s0, f)
  {
  }

  /** A slice of a copy is the same slice of the chain, and starts and ends with its bounds. */
  lemma SliceOfCopy(copy: seq<Block>, chain: seq<Block>, first: nat, end: nat)
    requires copy <= chain && Numbered(chain) && first < end <= |copy|
    ensures var u := From(copy[..end], first);
            && u == From(chain[..first + |u|], first)
            && u[0].number == first && u[|u| - 1] == chain[end - 1] && chain[end - 1].number == end - 1
  {
    assert copy[..end] == chain[..end];
  }

  /** A segment of the proof lies within the sender's copy. */
  lemma SegmentShape(w: World, n: NodeId, r: NodeId, f: PC.Family, k: NodeId)
    requires n in w.state && k in f && PC.IsFamily(SettingOf(w, n, r), f)
    ensures var s0 := SettingOf(w, n, r);
            var first, end := s0.First(k), PC.End(s0, f, k);
            && k in w.state && k != r && first < end <= |Copy(w, n, k).blocks|
            && f[k] == From(Copy(w, n, k).blocks[..end], first) && end == first + |f[k]|
  {
    ChainIsCopy(w, n, r, k);
  }

  /** One segment of the proof. */
  lemma NewPiece(w: World, n: NodeId, t: Transaction, f: PC.Family, k: NodeId)
    requires Proven(w, n, t, f) && k in f && CopyOk(w, n, k) && OwnChainOk(w, k)
    ensures PieceOk(w, n, t.receiver, k, f[k])
    ensures var s0 := SettingOf(w, n, t.receiver);
            f[k][0].number == s0.First(k) && SegmentEnd(Message(t, f), k) == PC.End(s0, f, k)
  {
    var s0 := SettingOf(w, n, t.receiver);
    ProofIsFamily(w, n, t, f);
    SegmentShape(w, n, t.receiver, f, k);
    SliceOfCopy(Copy(w, n, k).blocks, Own(w, k), s0.First(k), PC.End(s0, f, k));
    SegmentEndsCommitted(w, n, t, f, k);
  }

  lemma SegmentEndsCommitted(w: World, n: NodeId, t: Transaction, f: PC.Family, k: NodeId)
    requires Proven(w, n, t, f) && k in f && CopyOk(w, n, k)
    requires PC.End(SettingOf(w, n, t.receiver), f, k) > 0
    ensures var end := PC.End(SettingOf(w, n, t.receiver), f, k); end <= |Own(w, k)| && Own(w, k)[end - 1] in w.mainChain
  {
    var s0 := SettingOf(w, n, t.receiver);
    ProofIsFamily(w, n, t, f);
    ChainIsCopy(w, n, t.receiver, k);
    if k != n {
      assert PC.CommittedEnd(s0, k, PC.End(s0, f, k));
      var b: nat :| b < |s0.Chain(k).next| && s0.Chain(k).next[b] + 1 == PC.End(s0, f, k);
    }
  }

  /** The new message is as every queued message has to be. */
  lemma NewMessageOk(w: World, n: NodeId, t: Transaction, f: PC.Family, v: World)
    requires ChainsOk(w) && CopiesOk(w) && Proven(w, n, t, f) && Next(w, n, t)
    requires Posted(w, n, t.receiver, Message(t, f), v)
    ensures MessageOk(v, n, t.receiver, |Queue(w, n, t.receiver)|)
  {
    var r, q, msg := t.receiver, |Queue(w, n, t.receiver)|, Message(t, f);
    assert Queue(v, n, r)[q] == msg;
    InChainGrows(w, v, t);
    assert Received(v, r) == Received(w, r) && Sent(v, n) == Sent(w, n);
    forall k | k in f
      ensures PieceOk(v, n, r, k, f[k])
    {
      ProofIsFamily(w, n, t, f);
      SegmentShape(w, n, r, f, k);
      assert CopyOk(w, n, k) && OwnChainOk(w, k);
      NewPiece(w, n, t, f, k);
      PieceGrows(w, v, n, r, k, f[k]);
    }
  }

  lemma NewSegmentStart(w: World, n: NodeId, t: Transaction, f: PC.Family, k: NodeId)
    requires ChainsOk(w) && CopiesOk(w) && Proven(w, n, t, f) && k in f
    ensures k != t.receiver && f[k] != [] && f[k][0].number == LastKnown(Known(w, n, t.receiver), k) + 1
  {
    ProofIsFamily(w, n, t, f);
    SegmentShape(w, n, t.receiver, f, k);
    assert CopyOk(w, n, k) && OwnChainOk(w, k);
    NewPiece(w, n, t, f, k);
  }

  /** What was sent is known, and the new segments start where the known ones end. */
  lemma NewSegmentsAscend(w: World, n: NodeId, t: Transaction, f: PC.Family, v: World)
    requires ChainsOk(w) && CopiesOk(w) && Proven(w, n, t, f)
    requires SentIsKnown(w, n, t.receiver) && Ascends(w, n, t.receiver) && Posted(w, n, t.receiver, Message(t, f), v)
    ensures SentIsKnown(v, n, t.receiver) && Ascends(v, n, t.receiver)
  {
    forall k | k in f
      ensures k != t.receiver && f[k] != [] && f[k][0].number == LastKnown(Known(w, n, t.receiver), k) + 1
    {
      NewSegmentStart(w, n, t, f, k);
    }
    PostedIsKnown(w, n, t.receiver, Message(t, f), v);
    PostedAscends(w, n, t.receiver, Message(t, f), v);
  }

  lemma PostedIsKnown(w: World, n: NodeId, r: NodeId, msg: Message, v: World)
    requires SentIsKnown(w, n, r) && Posted(w, n, r, msg, v)
    ensures SentIsKnown(v, n, r)
  {
    forall j, k | 0 <= j < |Queue(v, n, r)| && k != r
      ensures SegmentEnd(Queue(v, n, r)[j], k) <= LastKnown(Known(v, n, r), k) + 1
    {
      if j < |Queue(w, n, r)| {
        assert Queue(v, n, r)[j] == Queue(w, n, r)[j];
      }
    }
  }

  lemma PostedAscends(w: World, n: NodeId, r: NodeId, msg: Message, v: World)
    requires SentIsKnown(w, n, r) && Ascends(w, n, r) && Queue(v, n, r) == Queue(w, n, r) + [msg]
    requires forall k | k in msg.updates :: k != r && msg.updates[k] != [] && msg.updates[k][0].number == LastKnown(Known(w, n, r), k) + 1
    ensures Ascends(v, n, r)
  {
    var q := Queue(w, n, r);
    forall i, j, k | 0 <= i < j < |Queue(v, n, r)| && k in Queue(v, n, r)[j].updates && Queue(v, n, r)[j].updates[k] != []
      ensures SegmentEnd(Queue(v, n, r)[i], k) <= Queue(v, n, r)[j].updates[k][0].number
    {
      assert Queue(v, n, r)[i] == q[i];
      if j < |q| {
        assert Queue(v, n, r)[j] == q[j];
      }
    }
  }

  /** What makes a transaction the next one for its channel. */
  ghost predicate Next(w: World, n: NodeId, t: Transaction) {
    && t.receiver in w.state && t.receiver != n && t !in Received(w, t.receiver)
    && (forall u, x | InChain(w, u) && x in u.source && x.sender == Some(n) && u.sender != Some(n) :: x.block <= t.block)
    && (forall j | 0 <= j < |Queue(w, n, t.receiver)| :: Queue(w, n, t.receiver)[j].main.block < t.block)
  }

  lemma PostChannel(w: World, n: NodeId, t: Transaction, f: PC.Family, v: World)
    requires ChainsOk(w) && CopiesOk(w) && ChannelOk(w, n, t.receiver) && Proven(w, n, t, f) && Next(w, n, t)
    requires Posted(w, n, t.receiver, Message(t, f), v)
    ensures ChannelOk(v, n, t.receiver)
  {
    NewMessageOk(w, n, t, f, v);
    OldMessages(w, n, t.receiver, Message(t, f), v);
    StillInOrder(w, n, t, Message(t, f), v);
    NewSegmentsAscend(w, n, t, f, v);
    WholeChannelOk(v, n, t.receiver, |Queue(w, n, t.receiver)|);
  }

  lemma WholeChannelOk(w: World, n: NodeId, r: NodeId, q: nat)
    requires InOrder(w, n, r) && SentIsKnown(w, n, r) && Ascends(w, n, r) && n in w.state && r in w.state
    requires |Queue(w, n, r)| == q + 1 && MessageOk(w, n, r, q)
    requires forall j | 0 <= j < q :: MessageOk(w, n, r, j)
    ensures ChannelOk(w, n, r)
  {
  }

  lemma StillInOrder(w: World, n: NodeId, t: Transaction, msg: Message, v: World)
    requires ChannelOk(w, n, t.receiver) && Next(w, n, t) && msg.main == t && Posted(w, n, t.receiver, msg, v)
    ensures InOrder(v, n, t.receiver)
  {
  }

  lemma OldMessages(w: World, n: NodeId, r: NodeId, msg: Message, v: World)
    requires ChannelOk(w, n, r) && Posted(w, n, r, msg, v)
    ensures forall j | 0 <= j < |Queue(w, n, r)| :: MessageOk(v, n, r, j)
  {
    forall j | 0 <= j < |Queue(w, n, r)|
      ensures MessageOk(v, n, r, j)
    {
      assert MessageOk(w, n, r, j) && Received(w, r) == Received(v, r);
      MessageGrows(w, v, n, r, j, j);
    }
  }

  lemma OtherChannels(w: World, n: NodeId, r: NodeId, msg: Message, v: World, a: NodeId, b: NodeId)
    requires ChannelOk(w, a, b) && Posted(w, n, r, msg, v) && !(a == n && b == r)
    ensures ChannelOk(v, a, b)
  {
    assert Received(w, b) == Received(v, b);
    forall j | 0 <= j < |Queue(w, a, b)|
      ensures Queue(w, a, b)[j].main !in Received(v, b)
    {
      assert MessageOk(w, a, b, j);
    }
    ChannelGrows(w, v, a, b);
  }

  lemma PostedCopies(w: World, n: NodeId, r: NodeId, msg: Message, v: World)
    requires CopiesOk(w) && Posted(w, n, r, msg, v)
    ensures CopiesOk(v)
  {
    forall a, b | a in v.state && b in v.state
      ensures CopyOk(v, a, b)
    {
      assert CopyOk(w, a, b);
    }
  }

  lemma PostKeeps(w: World, n: NodeId, t: Transaction, f: PC.Family)
    requires Inv(w) && Proven(w, n, t, f) && Next(w, n, t)
    ensures Inv(Post(w, n, t.receiver, Message(t, f)))
  {
    var v := Post(w, n, t.receiver, Message(t, f));
    PostFacts(w, n, t.receiver, Message(t, f));
    SameBlocksKeep(w, v);
    PostedCopies(w, n, t.receiver, Message(t, f), v);
    forall a, b
      ensures ChannelOk(v, a, b)
    {
      assert ChannelOk(w, a, b);
      if a == n && b == t.receiver {
        PostChannel(w, n, t, f, v);
      } else {
        OtherChannels(w, n, t.receiver, Message(t, f), v, a, b);
      }
    }
  }

  lemma SendKeeps(w: World, n: NodeId, updates: PC.Family)
    requires Inv(w) && Enabled(w, SendNext(n, updates))
    ensures Inv(AfterSend(w, n, updates))
  {
    SendIsReady(w, n, updates);
    PassedKeeps(w, n);
    var p, ts := Passed(w, n), Own(w, n)[Sent(w, n) + 1].transactions;
    ShippedKeeps(p, n, ts, updates);
    SendShips(w, n, updates, p, ts);
  }

  lemma SendShips(w: World, n: NodeId, updates: PC.Family, p: World, ts: seq<Transaction>)
    requires MaySend(w, n) && p == Passed(w, n) && ts == Own(w, n)[Sent(w, n) + 1].transactions
    ensures AfterSend(w, n, updates) == Shipped(p, n, ts, updates)
  {
  }

  /** The next block can be sent: if it holds a transaction, that is next, and `updates` proves it. */
  ghost predicate Ready(w: World, n: NodeId, updates: PC.Family)
    requires MaySend(w, n)
  {
    var ts := Own(w, n)[Sent(w, n) + 1].transactions;
    ts != [] ==>
      && InChain(w, ts[0]) && ts[0].sender == Some(n) && ts[0].block == Sent(w, n) + 1
      && Proven(Passed(w, n), n, ts[0], updates) && Next(Passed(w, n), n, ts[0])
  }

  lemma SendIsReady(w: World, n: NodeId, updates: PC.Family)
    requires Inv(w) && Enabled(w, SendNext(n, updates))
    ensures Ready(w, n, updates)
  {
    if Own(w, n)[Sent(w, n) + 1].transactions != [] {
      assert OwnChainOk(w, n) && CopyOk(w, n, n);
      NextIsProven(w, n, updates);
      NextIsNext(w, n, Own(w, n)[Sent(w, n) + 1].transactions[0]);
    }
  }

  lemma ShippedKeeps(p: World, n: NodeId, ts: seq<Transaction>, updates: PC.Family)
    requires Inv(p) && n in p.state && (ts != [] ==> Proven(p, n, ts[0], updates) && Next(p, n, ts[0]))
    ensures Inv(Shipped(p, n, ts, updates))
  {
    if ts != [] {
      PostKeeps(p, n, ts[0], updates);
    }
  }

  lemma PassedSame(w: World, n: NodeId)
    requires n in w.state
    ensures var p := Passed(w, n);
            && (forall a, b :: Copy(p, a, b) == Copy(w, a, b) && Known(p, a, b) == Known(w, a, b) && Queue(p, a, b) == Queue(w, a, b))
            && (forall a :: Received(p, a) == Received(w, a))
            && Sent(p, n) == Sent(w, n) + 1 && p.state[n].copies == w.state[n].copies && p.state.Keys == w.state.Keys
  {
  }

  lemma NextIsProven(w: World, n: NodeId, updates: PC.Family)
    requires n in w.state && OwnChainOk(w, n) && CopyOk(w, n, n) && Enabled(w, SendNext(n, updates))
    requires Own(w, n)[Sent(w, n) + 1].transactions != []
    ensures var t := Own(w, n)[Sent(w, n) + 1].transactions[0];
            && InChain(w, t) && t.sender == Some(n) && t.block == Sent(w, n) + 1
            && Proven(Passed(w, n), n, t, updates)
  {
    var b := Sent(w, n) + 1;
    var t := Own(w, n)[b].transactions[0];
    assert t in Own(w, n)[b].transactions;
    ChainIsCopy(w, n, t.receiver, n);
    EnabledProves(w, n, updates, t);
    ProvesPassed(w, n, t, updates);
  }

  lemma EnabledProves(w: World, n: NodeId, updates: PC.Family, t: Transaction)
    requires MaySend(w, n) && CopyOk(w, n, n)
    requires Own(w, n)[Sent(w, n) + 1].transactions != [] && t == Own(w, n)[Sent(w, n) + 1].transactions[0]
    requires SettingOf(w, n, t.receiver).Chain(n) == Copy(w, n, n)
    requires Enabled(w, SendNext(n, updates))
    ensures PC.Proves(SettingOf(w, n, t.receiver), Sent(w, n) + 1, updates)
  {
    var s, b := SettingOf(w, n, t.receiver), Sent(w, n) + 1;
    EnabledIsProof(w, n, updates, t);
    PC.ProofProves(s, b, updates);
  }

  lemma EnabledIsProof(w: World, n: NodeId, updates: PC.Family, t: Transaction)
    requires MaySend(w, n) && SettingOf(w, n, t.receiver).Chain(n) == Copy(w, n, n)
    requires Own(w, n)[Sent(w, n) + 1].transactions != [] && t == Own(w, n)[Sent(w, n) + 1].transactions[0]
    requires Enabled(w, SendNext(n, updates))
    ensures PC.IsProof(SettingOf(w, n, t.receiver), Sent(w, n) + 1, updates)
  {
  }

  lemma ProvesPassed(w: World, n: NodeId, t: Transaction, updates: PC.Family)
    requires MaySend(w, n) && CopyOk(w, n, n) && InChain(w, t) && t.sender == Some(n) && t.block == Sent(w, n) + 1
    requires SettingOf(w, n, t.receiver).Chain(n) == Copy(w, n, n)
    requires PC.Proves(SettingOf(w, n, t.receiver), t.block, updates)
    ensures Proven(Passed(w, n), n, t, updates)
  {
    PassedSame(w, n);
    assert SettingOf(Passed(w, n), n, t.receiver) == SettingOf(w, n, t.receiver);
  }

  /** The next transaction of `n` is later than all that it has sent. */
  lemma NextIsNext(w: World, n: NodeId, t: Transaction)
    requires Inv(w) && InChain(w, t) && t.sender == Some(n) && t.block == Sent(w, n) + 1
    ensures Next(Passed(w, n), n, t)
  {
    var p := Passed(w, n);
    PassedSame(w, n);
    assert TransactionOk(w, t) && ChannelOk(w, n, t.receiver);
    forall j | 0 <= j < |Queue(w, n, t.receiver)|
      ensures Queue(w, n, t.receiver)[j].main.block < t.block
    {
      assert MessageOk(w, n, t.receiver, j);
    }
    forall u, x | InChain(p, u) && x in u.source && x.sender == Some(n) && u.sender != Some(n)
      ensures x.block <= t.block
    {
      assert Own(p, u.sender.value) == Own(w, u.sender.value);
      assert InChain(w, u) && TransactionOk(w, u) && Spendable(w, u.sender.value, x);
    }
  }
}
