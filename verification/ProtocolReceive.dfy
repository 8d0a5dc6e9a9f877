/** Handling a message, whatever comes of it, keeps the protocol invariant. */
module ProtocolReceive {
  import opened Ledger
  import opened ChainReach
  import opened Replicas
  import CR = ChainReplication
  import opened Validation
  import opened Protocol
  import opened ProtocolInvariant
  import opened ProtocolSteps
  import opened ProtocolSend
  import opened ProtocolDelivery
  import PC = ProofConstruction

  /** `v` is `w` after `m` has accepted the first message of `n`. */
  ghost predicate Delivered(w: World, n: NodeId, m: NodeId, v: World)
    requires Queue(w, n, m) != []
  {
    var msg := Queue(w, n, m)[0];
    && m in w.state && w.state.Keys == v.state.Keys && w.genesis == v.genesis && v.mainChain == w.mainChain
    && (forall a, k | a != m :: Copy(v, a, k) == Copy(w, a, k))
    && (forall k :: Copy(v, m, k) == Updated(Copy(w, m, k), UpdateOf(msg.updates, k), w.state[m].cache))
    && (forall a | a in v.state :: v.state[a].cache == w.state[a].cache)
    && (forall a | a in v.state :: v.state[a].copies.Keys <= w.state[a].copies.Keys + msg.updates.Keys)
    && (forall a :: Sent(v, a) == Sent(w, a))
    && (forall a | a != m :: Received(v, a) == Received(w, a) && Unspent(v, a) == Unspent(w, a))
    && Received(v, m) == Received(w, m) + {msg.main}
    && Unspent(v, m) <= Unspent(w, m) + {msg.main}
    && (forall a, b | !(a == n && b == m) :: Queue(v, a, b) == Queue(w, a, b))
    && Queue(v, n, m) == Queue(w, n, m)[1..]
    && (forall a, b | !(a == m && b == n) :: Known(v, a, b) == Known(w, a, b))
    && forall k :: LastKnown(Known(v, m, n), k) == Learned(Known(w, m, n), n, msg.updates, k)
  }

  lemma TakeFacts(w: World, n: NodeId, m: NodeId)
    requires Queue(w, n, m) != []
    ensures var p := Take(w, n, m);
            && p.state == w.state && p.genesis == w.genesis && p.mainChain == w.mainChain
            && (forall a, b | !(a == n && b == m) :: Queue(p, a, b) == Queue(w, a, b))
            && Queue(p, n, m) == Queue(w, n, m)[1..]
  {
  }

  lemma AbsorbCopies(p: World, m: NodeId, msg: Message)
    requires m in p.state && msg.main.sender.Some?
    ensures var v := Absorb(p, m, msg);
            && (forall a, k | a != m :: Copy(v, a, k) == Copy(p, a, k))
            && (forall k :: Copy(v, m, k) == Updated(Copy(p, m, k), UpdateOf(msg.updates, k), p.state[m].cache))
            && v.state[m].copies.Keys == p.state[m].copies.Keys + msg.updates.Keys
  {
  }

  lemma AbsorbRest(p: World, m: NodeId, msg: Message)
    requires m in p.state && msg.main.sender.Some?
    ensures var v, n := Absorb(p, m, msg), msg.main.sender.value;
            && v.channel == p.channel && v.genesis == p.genesis && v.mainChain == p.mainChain
            && v.state.Keys == p.state.Keys
            && (forall a | a != m && a in v.state :: v.state[a] == p.state[a])
            && v.state[m].cache == p.state[m].cache && v.state[m].alreadySent == p.state[m].alreadySent
            && v.state[m].received == p.state[m].received + {msg.main}
            && v.state[m].unspent <= p.state[m].unspent + {msg.main}
            && (forall a, b | !(a == m && b == n) :: Known(v, a, b) == Known(p, a, b))
            && forall k :: LastKnown(Known(v, m, n), k) == Learned(Known(p, m, n), n, msg.updates, k)
  {
    forall k: NodeId
      ensures LastKnown(Known(Absorb(p, m, msg), m, msg.main.sender.value), k)
              == Learned(Known(p, m, msg.main.sender.value), msg.main.sender.value, msg.updates, k)
    {
      LearnFromIsLearned(Known(p, m, msg.main.sender.value), msg.main.sender.value, msg.updates, k);
    }
  }

  lemma DeliveredFacts(w: World, n: NodeId, m: NodeId)
    requires m in w.state && Queue(w, n, m) != [] && Queue(w, n, m)[0].main.sender == Some(n)
    ensures Delivered(w, n, m, Absorb(Take(w, n, m), m, Queue(w, n, m)[0]))
  {
    var p, msg := Take(w, n, m), Queue(w, n, m)[0];
    TakeFacts(w, n, m);
    AbsorbCopies(p, m, msg);
    AbsorbRest(p, m, msg);
    TakenIsDelivered(w, n, m, p, Absorb(p, m, msg));
  }

  lemma TakenIsDelivered(w: World, n: NodeId, m: NodeId, p: World, v: World)
    requires m in w.state && Queue(w, n, m) != [] && p.state == w.state && p.genesis == w.genesis && p.mainChain == w.mainChain
    requires (forall a, b | !(a == n && b == m) :: Queue(p, a, b) == Queue(w, a, b)) && Queue(p, n, m) == Queue(w, n, m)[1..]
    requires v.channel == p.channel && v.genesis == p.genesis && v.mainChain == p.mainChain && v.state.Keys == p.state.Keys
    requires forall a, k | a != m :: Copy(v, a, k) == Copy(p, a, k)
    requires forall k :: Copy(v, m, k) == Updated(Copy(p, m, k), UpdateOf(Queue(w, n, m)[0].updates, k), p.state[m].cache)
    requires v.state[m].copies.Keys == p.state[m].copies.Keys + Queue(w, n, m)[0].updates.Keys
    requires forall a | a != m && a in v.state :: v.state[a] == p.state[a]
    requires v.state[m].cache == p.state[m].cache && v.state[m].alreadySent == p.state[m].alreadySent
    requires v.state[m].received == p.state[m].received + {Queue(w, n, m)[0].main}
    requires v.state[m].unspent <= p.state[m].unspent + {Queue(w, n, m)[0].main}
    requires forall a, b | !(a == m && b == n) :: Known(v, a, b) == Known(p, a, b)
    requires forall k :: LastKnown(Known(v, m, n), k) == Learned(Known(p, m, n), n, Queue(w, n, m)[0].updates, k)
    ensures Delivered(w, n, m, v)
  {
  }

  // ---- the receiver's copies ----

  /** An updated copy is the longer prefix, with every new pointer set to a block on the main chain. */
  lemma UpdatedIsPrefix(w: World, n: NodeId, m: NodeId, k: NodeId, u: seq<Block>, cached: set<Block>)
    requires k in w.state && OwnChainOk(w, k) && CopyOk(w, m, k) && k != m && cached <= w.mainChain
    requires SegmentOk(w, n, m, k, u, |Copy(w, m, k).blocks|)
    ensures var c := Updated(Copy(w, m, k), u, cached);
            && c.blocks == Own(w, k)[..Max(|Copy(w, m, k).blocks|, u[0].number + |u|)]
            && |c.next| == |c.blocks|
            && forall i | 0 <= i < |c.next| :: i <= c.next[i] < |c.blocks| && Own(w, k)[c.next[i]] in w.mainChain
  {
    PieceExtends(w, n, m, k, u);
    NewPointers(w, n, m, k, u, cached);
    PointersJoin(w, k, Copy(w, m, k), CR.Accepted(u, |Copy(w, m, k).blocks|),
                 CR.Pointers(CR.Marks(CR.Accepted(u, |Copy(w, m, k).blocks|), u[|u| - 1].number, cached), |Copy(w, m, k).blocks|));
  }

  /** Old pointers and new ones together are right if each are. */
  lemma PointersJoin(w: World, k: NodeId, c: Replica, added: seq<Block>, pointers: seq<int>)
    requires |c.next| == |c.blocks| && |pointers| == |added| && |c.blocks| + |added| <= |Own(w, k)|
    requires forall i | 0 <= i < |c.next| :: i <= c.next[i] < |c.blocks| && Own(w, k)[c.next[i]] in w.mainChain
    requires forall i | 0 <= i < |added| ::
               |c.blocks| + i <= pointers[i] < |c.blocks| + |added| && Own(w, k)[pointers[i]] in w.mainChain
    ensures var next := c.next + pointers;
            forall i | 0 <= i < |next| :: i <= next[i] < |c.blocks| + |added| && Own(w, k)[next[i]] in w.mainChain
  {
  }

  lemma {:induction false} NewPointers(w: World, n: NodeId, m: NodeId, k: NodeId, u: seq<Block>, cached: set<Block>)
    requires k in w.state && OwnChainOk(w, k) && CopyOk(w, m, k) && cached <= w.mainChain
    requires SegmentOk(w, n, m, k, u, |Copy(w, m, k).blocks|)
    ensures var len := |Copy(w, m, k).blocks|;
            var added := CR.Accepted(u, len);
            var pointers := CR.Pointers(CR.Marks(added, u[|u| - 1].number, cached), len);
            && |pointers| == |added| && len + |added| <= |Own(w, k)|
            && forall i | 0 <= i < |added| :: len + i <= pointers[i] < len + |added| && Own(w, k)[pointers[i]] in w.mainChain
  {
    var len := |Copy(w, m, k).blocks|;
    var added := CR.Accepted(u, len);
    PieceFitsChain(w, n, m, k, u, len);
    var pointers := CR.Pointers(CR.Marks(added, u[|u| - 1].number, cached), len);
    forall i: nat | i < |added|
      ensures len + i <= pointers[i] < len + |added| && Own(w, k)[pointers[i]] in w.mainChain
    {
      NewPointer(w, n, m, k, u, cached, i);
    }
  }

  lemma {:induction false} PieceFitsChain(w: World, n: NodeId, m: NodeId, k: NodeId, u: seq<Block>, len: nat)
    requires OwnChainOk(w, k) && SegmentOk(w, n, m, k, u, len) && len <= |Own(w, k)|
    ensures len + |CR.Accepted(u, len)| <= |Own(w, k)|
  {
    SegmentNumbers(w, n, m, k, u, len);
    AcceptedAt(Own(w, k), u, len);
  }

  lemma {:induction false} PieceExtends(w: World, n: NodeId, m: NodeId, k: NodeId, u: seq<Block>)
    requires k in w.state && OwnChainOk(w, k) && CopyOk(w, m, k) && SegmentOk(w, n, m, k, u, |Copy(w, m, k).blocks|)
    ensures var own := Copy(w, m, k).blocks;
            own + CR.Accepted(u, |own|) == Own(w, k)[..Max(|own|, u[0].number + |u|)]
  {
    var own := Copy(w, m, k).blocks;
    PieceContiguous(w, n, m, k, u, |own|);
    CR.AcceptedIsSuffix(u, |own|);
    Continues(Own(w, k), own, u, u[0].number, CR.Accepted(u, |own|));
  }

  lemma PieceContiguous(w: World, n: NodeId, m: NodeId, k: NodeId, u: seq<Block>, limit: nat)
    requires SegmentOk(w, n, m, k, u, limit) && OwnChainOk(w, k)
    ensures CR.Contiguous(u)
  {
    SegmentNumbers(w, n, m, k, u, limit);
  }

  lemma Continues(chain: seq<Block>, own: seq<Block>, u: seq<Block>, first: nat, added: seq<Block>)
    requires own <= chain && first <= |own| && first + |u| <= |chain| && u == From(chain[..first + |u|], first)
    requires added == if |own| <= first + |u| then From(u, |own| - first) else []
    ensures own + added == chain[..Max(|own|, first + |u|)]
  {
    if |own| > first + |u| {
      assert own + added == own;
    }
  }

  lemma {:induction false} NewPointer(w: World, n: NodeId, m: NodeId, k: NodeId, u: seq<Block>, cached: set<Block>, i: nat)
    requires k in w.state && OwnChainOk(w, k) && CopyOk(w, m, k) && cached <= w.mainChain
    requires SegmentOk(w, n, m, k, u, |Copy(w, m, k).blocks|)
    requires i < |CR.Accepted(u, |Copy(w, m, k).blocks|)|
    ensures var len := |Copy(w, m, k).blocks|;
            var added := CR.Accepted(u, len);
            var p := CR.Pointers(CR.Marks(added, u[|u| - 1].number, cached), len)[i];
            len + i <= p < len + |added| && p < |Own(w, k)| && Own(w, k)[p] in w.mainChain
  {
    var len := |Copy(w, m, k).blocks|;
    SegmentNumbers(w, n, m, k, u, len);
    CR.UpdatePointersSet(u, len, cached, i);
    AcceptedAt(Own(w, k), u, len);
  }

  /** What is accepted of a piece of a chain continues the chain. */
  lemma {:induction false} AcceptedAt(chain: seq<Block>, u: seq<Block>, len: nat)
    requires u != [] && u[0].number <= len && u[0].number + |u| <= |chain|
    requires forall i | 0 <= i < |u| :: u[i] == chain[u[0].number + i] && u[i].number == u[0].number + i
    ensures var added := CR.Accepted(u, len);
            && len + |added| == Max(len, u[0].number + |u|)
            && forall j | 0 <= j < |added| :: added[j] == chain[len + j] && added[j].number == len + j
    ensures u[|u| - 1] == chain[u[0].number + |u| - 1] && u[|u| - 1].number == u[0].number + |u| - 1
  {
    CR.AcceptedIsSuffix(u, len);
  }

  /** Every copy of the receiver now covers what the message covered. */
  lemma NewCopy(w: World, n: NodeId, m: NodeId, v: World, k: NodeId)
    requires Queue(w, n, m) != [] && Delivered(w, n, m, v) && k in w.state && k != m && OwnChainOk(w, k)
    requires CopyOk(w, m, k) && w.state[m].cache <= w.mainChain && Fits(w, n, m, Queue(w, n, m)[0])
    ensures CopyOk(v, m, k)
    ensures |Copy(v, m, k).blocks| == Covered(w, m, Queue(w, n, m)[0], k)
  {
    var msg := Queue(w, n, m)[0];
    DeliveredChain(w, n, m, v, k);
    SegmentFitsCopy(w, n, m, msg, k);
    NewCopyFits(w, n, m, v, k, UpdateOf(msg.updates, k));
  }

  lemma DeliveredChain(w: World, n: NodeId, m: NodeId, v: World, k: NodeId)
    requires Queue(w, n, m) != [] && Delivered(w, n, m, v) && k != m
    ensures Copy(v, m, k) == Updated(Copy(w, m, k), UpdateOf(Queue(w, n, m)[0].updates, k), w.state[m].cache)
    ensures Own(v, k) == Own(w, k) && v.mainChain == w.mainChain && Sent(v, m) == Sent(w, m)
  {
  }

  lemma SegmentFitsCopy(w: World, n: NodeId, m: NodeId, msg: Message, k: NodeId)
    requires Fits(w, n, m, msg)
    ensures UpdateOf(msg.updates, k) != [] ==> SegmentOk(w, n, m, k, UpdateOf(msg.updates, k), |Copy(w, m, k).blocks|)
  {
  }

  lemma NewCopyFits(w: World, n: NodeId, m: NodeId, v: World, k: NodeId, u: seq<Block>)
    requires m in w.state && k in w.state && k != m && OwnChainOk(w, k) && CopyOk(w, m, k) && w.state[m].cache <= w.mainChain
    requires u != [] ==> SegmentOk(w, n, m, k, u, |Copy(w, m, k).blocks|)
    requires Copy(v, m, k) == Updated(Copy(w, m, k), u, w.state[m].cache)
    requires Own(v, k) == Own(w, k) && v.mainChain == w.mainChain && Sent(v, m) == Sent(w, m)
    ensures CopyOk(v, m, k)
    ensures |Copy(v, m, k).blocks| == if u == [] then |Copy(w, m, k).blocks| else Max(|Copy(w, m, k).blocks|, u[|u| - 1].number + 1)
  {
    if u != [] {
      UpdatedCopyOk(w, n, m, k, u, v);
    } else {
      SameCopyOk(w, m, k, v);
    }
  }

  lemma UpdatedCopyOk(w: World, n: NodeId, m: NodeId, k: NodeId, u: seq<Block>, v: World)
    requires m in w.state && k in w.state && OwnChainOk(w, k) && CopyOk(w, m, k) && k != m && w.state[m].cache <= w.mainChain
    requires SegmentOk(w, n, m, k, u, |Copy(w, m, k).blocks|)
    requires Copy(v, m, k) == Updated(Copy(w, m, k), u, w.state[m].cache)
    requires Own(v, k) == Own(w, k) && v.mainChain == w.mainChain
    ensures CopyOk(v, m, k)
    ensures |Copy(v, m, k).blocks| == Max(|Copy(w, m, k).blocks|, u[|u| - 1].number + 1)
  {
    SegmentNumbers(w, n, m, k, u, |Copy(w, m, k).blocks|);
    UpdatedIsPrefix(w, n, m, k, u, w.state[m].cache);
  }

  lemma SameCopyOk(w: World, a: NodeId, b: NodeId, v: World)
    requires CopyOk(w, a, b) && Copy(v, a, b) == Copy(w, a, b) && Sent(v, a) == Sent(w, a)
    requires Own(v, b) == Own(w, b) && v.mainChain == w.mainChain
    ensures CopyOk(v, a, b)
  {
  }

  /** The chains that no segment belongs to, the receiver's own among them, stay as they are. */
  lemma NoNewBlocks(w: World, n: NodeId, m: NodeId, v: World, k: NodeId)
    requires Queue(w, n, m) != [] && Delivered(w, n, m, v) && (k == m || k !in w.state)
    requires Fits(w, n, m, Queue(w, n, m)[0])
    ensures Copy(v, m, k) == Copy(w, m, k) && |Copy(v, m, k).blocks| == Covered(w, m, Queue(w, n, m)[0], k)
  {
    SegmentsAreForeign(w, n, m, Queue(w, n, m)[0]);
  }

  lemma SegmentsAreForeign(w: World, n: NodeId, m: NodeId, msg: Message)
    requires Fits(w, n, m, msg)
    ensures forall k | k in msg.updates :: k in w.state && k != m
  {
    forall k | k in msg.updates
      ensures k in w.state && k != m
    {
      assert SegmentOk(w, n, m, k, msg.updates[k], |Copy(w, m, k).blocks|);
    }
  }

  lemma DeliveredLengths(w: World, n: NodeId, m: NodeId, v: World, k: NodeId)
    requires Queue(w, n, m) != [] && Delivered(w, n, m, v) && ChainsOk(w) && CopiesOk(w)
    requires Fits(w, n, m, Queue(w, n, m)[0])
    ensures |Copy(v, m, k).blocks| == Covered(w, m, Queue(w, n, m)[0], k) && Own(w, k) == Own(v, k)
    ensures k in w.state ==> CopyOk(v, m, k)
  {
    assert k in w.state ==> OwnChainOk(w, k) && CopyOk(w, m, k);
    if k in w.state && k != m {
      NewCopy(w, n, m, v, k);
    } else {
      NoNewBlocks(w, n, m, v, k);
      if k == m {
        SameCopyOk(w, m, m, v);
      }
    }
  }

  lemma DeliveredGrows(w: World, n: NodeId, m: NodeId, v: World)
    requires Queue(w, n, m) != [] && Delivered(w, n, m, v) && ChainsOk(w) && CopiesOk(w)
    requires Fits(w, n, m, Queue(w, n, m)[0])
    ensures Grows(w, v) && SameChains(w, v)
    ensures forall k :: |Copy(v, m, k).blocks| == Covered(w, m, Queue(w, n, m)[0], k)
  {
    forall k
      ensures |Copy(v, m, k).blocks| == Covered(w, m, Queue(w, n, m)[0], k) && Own(w, k) == Own(v, k)
    {
      DeliveredLengths(w, n, m, v, k);
    }
    LongerCopiesGrow(w, n, m, v);
  }

  lemma LongerCopiesGrow(w: World, n: NodeId, m: NodeId, v: World)
    requires Queue(w, n, m) != [] && Delivered(w, n, m, v)
    requires forall k :: Own(w, k) == Own(v, k) && |Copy(w, m, k).blocks| <= |Copy(v, m, k).blocks|
    ensures Grows(w, v) && SameChains(w, v)
  {
  }

  lemma DeliveredCopies(w: World, n: NodeId, m: NodeId, v: World)
    requires Queue(w, n, m) != [] && Delivered(w, n, m, v) && ChainsOk(w) && CopiesOk(w)
    requires Fits(w, n, m, Queue(w, n, m)[0]) && SameChains(w, v)
    ensures CopiesOk(v)
  {
    forall a, b | a in v.state && b in v.state
      ensures CopyOk(v, a, b)
    {
      assert CopyOk(w, a, b);
      if a == m {
        DeliveredLengths(w, n, m, v, b);
      } else {
        SameCopyOk(w, a, b, v);
      }
    }
    SegmentsAreForeign(w, n, m, Queue(w, n, m)[0]);
    forall a, b | a in v.state && b in v.state[a].copies
      ensures b in v.state
    {
      assert b in w.state[a].copies || b in Queue(w, n, m)[0].updates;
    }
  }

  // ---- transactions ----

  lemma DeliveredClosed(w: World, n: NodeId, m: NodeId, v: World)
    requires Queue(w, n, m) != [] && Delivered(w, n, m, v) && ChainsOk(w) && CopiesClosed(w)
    requires Fits(w, n, m, Queue(w, n, m)[0]) && ClosesSight(w, m, Queue(w, n, m)[0])
    requires Grows(w, v) && SameChains(w, v)
    requires forall k :: |Copy(v, m, k).blocks| == Covered(w, m, Queue(w, n, m)[0], k)
    ensures CopiesClosed(v)
  {
    var msg := Queue(w, n, m)[0];
    forall a, t, s | a in v.state && InChain(v, t) && s in t.source
      ensures CopyClosed(v, a, t, s)
    {
      assert Own(w, t.sender.value) == Own(v, t.sender.value);
      assert InChain(w, t) && CopyClosed(w, a, t, s);
      if a == m && s.sender.Some? && s.sender != Some(m) && t.block < Covered(w, m, msg, t.sender.value) {
        assert OwnChainOk(w, t.sender.value);
        CarriedCovered(w, n, m, msg, t, s);
      }
    }
  }

  /** As for what is in sight, for any transaction of a covered block. */
  lemma CarriedCovered(w: World, n: NodeId, m: NodeId, msg: Message, t: Transaction, s: Transaction)
    requires InChain(w, t) && t.block < Covered(w, m, msg, t.sender.value) && s in t.source
    requires s.sender.Some? && s.sender != Some(m)
    requires OwnChainOk(w, t.sender.value) && CopyClosed(w, m, t, s) && Fits(w, n, m, msg) && ClosesSight(w, m, msg)
    ensures s.block < Covered(w, m, msg, s.sender.value)
  {
    var k := t.sender.value;
    if t.block >= |Copy(w, m, k).blocks| {
      var u := UpdateOf(msg.updates, k);
      assert SegmentOk(w, n, m, k, u, |Copy(w, m, k).blocks|);
      SegmentNumbers(w, n, m, k, u, |Copy(w, m, k).blocks|);
      assert Carries(msg, k, t.block);
    }
  }

  lemma DeliveredUnspent(w: World, n: NodeId, m: NodeId, v: World)
    requires Queue(w, n, m) != [] && Delivered(w, n, m, v) && MainOk(w, n, m, 0) && n != m
    requires TransactionsOk(w) && UnspentOk(w) && ReceivedOk(w) && Grows(w, v) && SameChains(w, v)
    requires forall k :: |Copy(v, m, k).blocks| == Covered(w, m, Queue(w, n, m)[0], k)
    requires Queue(w, n, m)[0].main.block < Covered(w, m, Queue(w, n, m)[0], n)
    ensures UnspentOk(v) && ReceivedOk(v)
  {
    var main := Queue(w, n, m)[0].main;
    InChainGrows(w, v, main);
    forall k: NodeId, s | s in Unspent(v, k)
      ensures Spendable(v, k, s)
      ensures forall t | InChain(v, t) && t.sender == Some(k) :: s !in t.source
    {
      if s in Unspent(w, k) {
        SpendableGrows(w, v, k, s);
        StaysUnspent(w, v, k, s);
      } else {
        assert k == m && s == main;
        NewIsUnspent(w, v, m, s);
      }
    }
  }

  lemma StaysUnspent(w: World, v: World, k: NodeId, s: Transaction)
    requires UnspentOk(w) && Grows(w, v) && SameChains(w, v) && s in Unspent(w, k)
    ensures forall t | InChain(v, t) && t.sender == Some(k) :: s !in t.source
  {
    forall t | InChain(v, t) && t.sender == Some(k)
      ensures s !in t.source
    {
      assert Own(w, k) == Own(v, k);
      assert InChain(w, t);
    }
  }

  /** What we have not received before cannot be spent in our chain. */
  lemma NewIsUnspent(w: World, v: World, m: NodeId, s: Transaction)
    requires TransactionsOk(w) && Grows(w, v) && SameChains(w, v)
    requires s.sender.Some? && s.sender != Some(m) && s !in Received(w, m)
    ensures forall t | InChain(v, t) && t.sender == Some(m) :: s !in t.source
  {
    forall t | InChain(v, t) && t.sender == Some(m)
      ensures s !in t.source
    {
      assert Own(w, m) == Own(v, m);
      assert InChain(w, t) && TransactionOk(w, t);
      assert forall x | x in t.source :: Spendable(w, m, x);
    }
  }

  // ---- channels ----

  /** The channel that was read: what was the second message is now the first. */
  lemma ReadChannel(w: World, n: NodeId, m: NodeId, v: World)
    requires Queue(w, n, m) != [] && Queue(v, n, m) == Queue(w, n, m)[1..] && Known(v, n, m) == Known(w, n, m)
    requires ChannelOk(w, n, m) && Grows(w, v) && Received(v, m) <= Received(w, m) + {Queue(w, n, m)[0].main}
    ensures ChannelOk(v, n, m)
  {
    var q := Queue(w, n, m);
    forall j | 0 <= j < |q| - 1
      ensures MessageOk(v, n, m, j)
    {
      assert MessageOk(w, n, m, j + 1) && q[0].main.block < q[j + 1].main.block;
      MessageGrows(w, v, n, m, j + 1, j);
    }
    forall j, k | 0 <= j < |q| - 1 && k != m
      ensures SegmentEnd(Queue(v, n, m)[j], k) <= LastKnown(Known(v, n, m), k) + 1
    {
      assert Queue(v, n, m)[j] == q[j + 1];
    }
  }

  lemma OtherChannel(w: World, n: NodeId, m: NodeId, v: World, a: NodeId, b: NodeId)
    requires Queue(w, n, m) != [] && Grows(w, v) && n != m && KnowsMore(w, v, a, b) && Queue(v, a, b) == Queue(w, a, b)
    requires ChannelOk(w, a, b) && MainOk(w, n, m, 0) && !(a == n && b == m)
    requires Received(v, b) <= Received(w, b) + {Queue(w, n, m)[0].main}
    ensures ChannelOk(v, a, b)
  {
    forall j | 0 <= j < |Queue(w, a, b)|
      ensures Queue(w, a, b)[j].main !in Received(v, b)
    {
      assert MessageOk(w, a, b, j);
    }
    ChannelGrows(w, v, a, b);
  }

  lemma HeadIsOk(w: World, n: NodeId, m: NodeId)
    requires Inv(w) && Queue(w, n, m) != []
    ensures n in w.state && m in w.state && n != m && MainOk(w, n, m, 0) && MessageOk(w, n, m, 0)
  {
    assert ChannelOk(w, n, m);
    assert MessageOk(w, n, m, 0);
    assert TransactionOk(w, Queue(w, n, m)[0].main);
  }

  // ---- the three outcomes ----

  /** The copies of `m` cover exactly what they covered before, and the message. */
  ghost predicate CoversMessage(w: World, n: NodeId, m: NodeId, v: World)
    requires Queue(w, n, m) != []
  {
    forall k :: |Copy(v, m, k).blocks| == Covered(w, m, Queue(w, n, m)[0], k)
  }

  lemma ReceiveKeeps(w: World, n: NodeId, m: NodeId)
    requires Inv(w) && Enabled(w, Receive(n, m))
    ensures Inv(AfterReceive(w, n, m))
    ensures Protocol.Accepted(w, m, Queue(w, n, m)[0]) ==> CoversMessage(w, n, m, AfterReceive(w, n, m))
  {
    var v := AfterReceive(w, n, m);
    HeadIsOk(w, n, m);
    if Protocol.Accepted(w, m, Queue(w, n, m)[0]) {
      assert ChannelOk(w, n, m);
      HeadFits(w, n, m);
      DeliveredFacts(w, n, m);
      DeliveredKeeps(w, n, m, v);
    } else {
      ShedFacts(w, n, m);
      ShedKeeps(w, n, m, v);
    }
  }

  lemma DeliveredKeeps(w: World, n: NodeId, m: NodeId, v: World)
    requires Inv(w) && Queue(w, n, m) != [] && Delivered(w, n, m, v) && n != m && MainOk(w, n, m, 0)
    requires Fits(w, n, m, Queue(w, n, m)[0]) && ClosesSight(w, m, Queue(w, n, m)[0])
    requires Queue(w, n, m)[0].main.block < Covered(w, m, Queue(w, n, m)[0], n)
    ensures Inv(v) && CoversMessage(w, n, m, v)
  {
    DeliveredGrows(w, n, m, v);
    DeliveredCopies(w, n, m, v);
    SpendingUnchanged(w, v);
    DeliveredClosed(w, n, m, v);
    DeliveredUnspent(w, n, m, v);
    SameOwnChains(w, v);
    forall a, b
      ensures ChannelOk(v, a, b)
    {
      assert ChannelOk(w, a, b);
      if a == n && b == m {
        ReadChannel(w, n, m, v);
      } else {
        DeliveredTeaches(w, n, m, v, a, b);
        OtherChannel(w, n, m, v, a, b);
      }
    }
  }

  lemma DeliveredTeaches(w: World, n: NodeId, m: NodeId, v: World, a: NodeId, b: NodeId)
    requires Queue(w, n, m) != [] && Delivered(w, n, m, v)
    ensures KnowsMore(w, v, a, b)
  {
  }

  /** `v` is `w` after `m` has refused or dropped the first message of `n`. */
  ghost predicate Shed(w: World, n: NodeId, m: NodeId, v: World)
    requires Queue(w, n, m) != []
  {
    && Grows(w, v) && SameChains(w, v) && v.mainChain == w.mainChain
    && (forall a, k :: Copy(v, a, k) == Copy(w, a, k))
    && (forall a | a in v.state :: a in w.state && v.state[a].cache == w.state[a].cache && v.state[a].copies == w.state[a].copies)
    && (forall a :: Sent(v, a) == Sent(w, a) && Unspent(v, a) == Unspent(w, a))
    && (forall a | a != m :: Received(v, a) == Received(w, a))
    && Received(v, m) <= Received(w, m) + {Queue(w, n, m)[0].main}
    && (forall a, b :: Known(v, a, b) == Known(w, a, b))
    && (forall a, b | !(a == n && b == m) :: Queue(v, a, b) == Queue(w, a, b))
    && Queue(v, n, m) == Queue(w, n, m)[1..]
  }

  lemma ShedFacts(w: World, n: NodeId, m: NodeId)
    requires Enabled(w, Receive(n, m)) && !Protocol.Accepted(w, m, Queue(w, n, m)[0])
    ensures Shed(w, n, m, AfterReceive(w, n, m))
  {
    if Decodes(w, m, Queue(w, n, m)[0]) {
      RefusedIsShed(w, n, m);
    } else {
      TakenIsShed(w, n, m);
    }
  }

  lemma TakenIsShed(w: World, n: NodeId, m: NodeId)
    requires Queue(w, n, m) != []
    ensures Shed(w, n, m, Take(w, n, m))
  {
    TakeFacts(w, n, m);
  }

  lemma RefusedIsShed(w: World, n: NodeId, m: NodeId)
    requires m in w.state && Queue(w, n, m) != []
    ensures Shed(w, n, m, Refuse(Take(w, n, m), m, Queue(w, n, m)[0]))
  {
    TakeFacts(w, n, m);
    RefuseFacts(Take(w, n, m), m, Queue(w, n, m)[0]);
    ReceivedMoreIsShed(w, n, m, Take(w, n, m), Refuse(Take(w, n, m), m, Queue(w, n, m)[0]));
  }

  lemma ReceivedMoreIsShed(w: World, n: NodeId, m: NodeId, p: World, v: World)
    requires m in w.state && Queue(w, n, m) != []
    requires p.state == w.state && p.genesis == w.genesis && p.mainChain == w.mainChain
    requires forall a, b | !(a == n && b == m) :: Queue(p, a, b) == Queue(w, a, b)
    requires Queue(p, n, m) == Queue(w, n, m)[1..]
    requires v.channel == p.channel && v.genesis == p.genesis && v.mainChain == p.mainChain && v.state.Keys == p.state.Keys
    requires forall a | a != m && a in v.state :: v.state[a] == p.state[a]
    requires v.state[m] == p.state[m].(received := v.state[m].received)
    requires p.state[m].received <= v.state[m].received <= p.state[m].received + {Queue(w, n, m)[0].main}
    ensures Shed(w, n, m, v)
  {
    var s := v.state[m];
    assert v.state == p.state[m := s];
    ChangedReads(p, v, m, s);
    assert forall a, k :: Copy(v, a, k) == Copy(w, a, k);
  }

  lemma RefuseFacts(p: World, m: NodeId, msg: Message)
    requires m in p.state
    ensures var v := Refuse(p, m, msg);
            && v.channel == p.channel && v.genesis == p.genesis && v.mainChain == p.mainChain && v.state.Keys == p.state.Keys
            && (forall a | a != m && a in v.state :: v.state[a] == p.state[a])
            && v.state[m] == p.state[m].(received := v.state[m].received)
            && p.state[m].received <= v.state[m].received <= p.state[m].received + {msg.main}
  {
  }

  lemma ShedKeeps(w: World, n: NodeId, m: NodeId, v: World)
    requires Inv(w) && Queue(w, n, m) != [] && Shed(w, n, m, v) && n != m && MainOk(w, n, m, 0)
    ensures Inv(v)
  {
    SpendingUnchanged(w, v);
    SameOwnChains(w, v);
    ShedCopies(w, n, m, v);
    ShedUnspent(w, n, m, v);
    forall a, b
      ensures ChannelOk(v, a, b)
    {
      assert ChannelOk(w, a, b);
      if a == n && b == m {
        ReadChannel(w, n, m, v);
      } else {
        OtherChannel(w, n, m, v, a, b);
      }
    }
  }

  lemma ShedUnspent(w: World, n: NodeId, m: NodeId, v: World)
    requires UnspentOk(w) && ReceivedOk(w) && Queue(w, n, m) != [] && Shed(w, n, m, v) && MainOk(w, n, m, 0)
    ensures UnspentOk(v) && ReceivedOk(v)
  {
    forall k: NodeId, s | s in Unspent(v, k)
      ensures Spendable(v, k, s) && forall t | InChain(v, t) && t.sender == Some(k) :: s !in t.source
    {
      assert s in Unspent(w, k);
      SpendableGrows(w, v, k, s);
      StaysUnspent(w, v, k, s);
    }
  }

  lemma ShedCopies(w: World, n: NodeId, m: NodeId, v: World)
    requires CopiesOk(w) && CopiesClosed(w) && Queue(w, n, m) != [] && Shed(w, n, m, v)
    requires forall t :: InChain(w, t) <==> InChain(v, t)
    ensures CopiesOk(v) && CopiesClosed(v)
  {
    forall a, b | a in v.state && b in v.state
      ensures CopyOk(v, a, b)
    {
      assert CopyOk(w, a, b);
      SameCopyOk(w, a, b, v);
    }
    forall a, t, s | a in v.state && InChain(v, t) && s in t.source
      ensures CopyClosed(v, a, t, s)
    {
      assert CopyClosed(w, a, t, s);
    }
  }
}
