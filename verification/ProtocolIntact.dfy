/** What keeps a channel intact: its messages leave no gap and decode, as long as no
    message that brings something new is refused. */
module ProtocolIntact {
  import opened Ledger
  import opened ChainReach
  import opened Replicas
  import opened ChainViews
  import opened Protocol
  import opened ProtocolInvariant
  import opened ProtocolSteps
  import opened ProtocolSend
  import opened ProtocolDelivery
  import opened ProtocolReceive
  import PC = ProofConstruction

  // ---- time passes ----

  lemma ReachedGrows(w: World, v: World, n: NodeId, m: NodeId, j: nat, k: NodeId)
    requires Grows(w, v) && j <= |Queue(w, n, m)| <= |Queue(v, n, m)|
    requires Queue(v, n, m)[..j] == Queue(w, n, m)[..j]
    ensures Reached(w, n, m, j, k) <= Reached(v, n, m, j, k)
  {
    assert |Copy(w, m, k).blocks| <= |Copy(v, m, k).blocks|;
    CoverageGrows(|Copy(w, m, k).blocks|, |Copy(v, m, k).blocks|, Queue(w, n, m)[..j], k);
  }

  lemma KnownGrows(w: World, v: World, n: NodeId, m: NodeId)
    requires Grows(w, v) && KnownOk(w, n, m)
    requires Known(v, n, m) == Known(w, n, m) && Queue(v, n, m) == Queue(w, n, m)
    ensures KnownOk(v, n, m)
  {
    forall k | k != m
      ensures LastKnown(Known(v, n, m), k) < Reached(v, n, m, |Queue(v, n, m)|, k)
    {
      ReachedGrows(w, v, n, m, |Queue(w, n, m)|, k);
    }
  }

  /** A queued message stays without a gap and closed. */
  lemma MessageStays(w: World, v: World, n: NodeId, m: NodeId, j: nat)
    requires Grows(w, v) && j < |Queue(w, n, m)| <= |Queue(v, n, m)|
    requires Queue(v, n, m)[..j + 1] == Queue(w, n, m)[..j + 1]
    requires MessageOk(w, n, m, j) && NoGap(w, n, m, j) && Closes(w, n, m, j)
    ensures NoGap(v, n, m, j) && Closes(v, n, m, j)
  {
    var msg := Queue(w, n, m)[j];
    assert Queue(v, n, m)[j] == Queue(v, n, m)[..j + 1][j] == msg;
    assert Queue(v, n, m)[..j] == Queue(v, n, m)[..j + 1][..j] == Queue(w, n, m)[..j];
    ReachedGrows(w, v, n, m, j + 1, n);
    forall k | k in msg.updates && msg.updates[k] != []
      ensures msg.updates[k][0].number <= Reached(v, n, m, j, k)
    {
      ReachedGrows(w, v, n, m, j, k);
    }
    forall t, s | InChain(v, t) && s in t.source
      ensures MessageClosed(v, n, m, j, t, s)
    {
      if Carries(msg, t.sender.value, t.block) && s.sender.Some? && s.sender != Some(m) {
        assert PieceOk(w, n, m, t.sender.value, msg.updates[t.sender.value]);
        InChainBack(w, v, t);
        assert MessageClosed(w, n, m, j, t, s);
        ReachedGrows(w, v, n, m, j + 1, s.sender.value);
      }
    }
  }

  lemma IntactGrows(w: World, v: World, n: NodeId, m: NodeId)
    requires Grows(w, v) && ChannelOk(w, n, m) && Intact(w, n, m)
    requires Queue(v, n, m) == Queue(w, n, m) && KnownOk(v, n, m)
    ensures Intact(v, n, m)
  {
    forall j | 0 <= j < |Queue(v, n, m)|
      ensures NoGap(v, n, m, j) && Closes(v, n, m, j)
    {
      assert MessageOk(w, n, m, j);
      MessageStays(w, v, n, m, j);
    }
  }

  lemma QuietIntact(w: World, v: World, n: NodeId, m: NodeId)
    requires Grows(w, v) && ChannelOk(w, n, m) && Intact(w, n, m)
    requires Known(v, n, m) == Known(w, n, m) && Queue(v, n, m) == Queue(w, n, m)
    ensures Intact(v, n, m)
  {
    KnownGrows(w, v, n, m);
    IntactGrows(w, v, n, m);
  }

  // ---- a message is sent ----

  lemma {:induction false} CoverageAppend(len: nat, msgs: seq<Message>, msg: Message, k: NodeId)
    ensures Coverage(len, msgs + [msg], k) == Max(Coverage(len, msgs, k), SegmentEnd(msg, k))
  {
    assert (msgs + [msg])[..|msgs|] == msgs;
  }

  /** What the receiver will have once the new message is handled. */
  lemma ReachedByNew(w: World, n: NodeId, r: NodeId, msg: Message, v: World, k: NodeId)
    requires Posted(w, n, r, msg, v)
    ensures var q := |Queue(w, n, r)|;
            && Reached(v, n, r, q, k) == Reached(w, n, r, q, k)
            && Reached(v, n, r, q + 1, k) == Max(Reached(w, n, r, q, k), SegmentEnd(msg, k))
  {
    var q := |Queue(w, n, r)|;
    assert Queue(v, n, r)[..q] == Queue(w, n, r)[..q] == Queue(w, n, r);
    assert Queue(v, n, r)[..q + 1] == Queue(w, n, r) + [msg];
    CoverageAppend(|Copy(w, r, k).blocks|, Queue(w, n, r), msg, k);
  }

  lemma FirstIsReached(w: World, n: NodeId, r: NodeId, k: NodeId)
    requires n in w.state && KnownOk(w, n, r) && k != r
    ensures SettingOf(w, n, r).First(k) <= Reached(w, n, r, |Queue(w, n, r)|, k)
  {
  }

  /** The family ends nowhere past what the receiver will have. */
  lemma EndIsReached(w: World, n: NodeId, t: Transaction, f: PC.Family, k: NodeId)
    requires ChainsOk(w) && CopiesOk(w) && Proven(w, n, t, f) && KnownOk(w, n, t.receiver) && k != t.receiver
    ensures PC.End(SettingOf(w, n, t.receiver), f, k)
            <= Max(Reached(w, n, t.receiver, |Queue(w, n, t.receiver)|, k), SegmentEnd(Message(t, f), k))
  {
    if k in f {
      NewPieceOf(w, n, t, f, k);
    } else {
      FirstIsReached(w, n, t.receiver, k);
    }
  }

  lemma NewPieceOf(w: World, n: NodeId, t: Transaction, f: PC.Family, k: NodeId)
    requires ChainsOk(w) && CopiesOk(w) && Proven(w, n, t, f) && k in f
    ensures PieceOk(w, n, t.receiver, k, f[k])
    ensures var s0 := SettingOf(w, n, t.receiver);
            f[k][0].number == s0.First(k) && SegmentEnd(Message(t, f), k) == PC.End(s0, f, k)
  {
    ProofIsFamily(w, n, t, f);
    SegmentShape(w, n, t.receiver, f, k);
    assert CopyOk(w, n, k) && OwnChainOk(w, k);
    NewPiece(w, n, t, f, k);
  }

  /** The transaction itself will be in the receiver's copy. */
  lemma NewMain(w: World, n: NodeId, t: Transaction, f: PC.Family)
    requires ChainsOk(w) && CopiesOk(w) && Proven(w, n, t, f) && KnownOk(w, n, t.receiver) && t.receiver != n
    ensures t.block < Max(Reached(w, n, t.receiver, |Queue(w, n, t.receiver)|, n), SegmentEnd(Message(t, f), n))
  {
    EndIsReached(w, n, t, f, n);
    ChainIsCopy(w, n, t.receiver, n);
  }

  lemma CarriedInBlock(w: World, n: NodeId, t: Transaction, f: PC.Family, u: Transaction)
    requires ChainsOk(w) && CopiesOk(w) && Proven(w, n, t, f)
    requires InChain(w, u) && Carries(Message(t, f), u.sender.value, u.block)
    ensures var s0, k := SettingOf(w, n, t.receiver), u.sender.value;
            s0.InBlock(k, u.block, u) && s0.First(k) <= u.block < PC.End(s0, f, k)
  {
    var k := u.sender.value;
    NewPieceOf(w, n, t, f, k);
    ChainIsCopy(w, n, t.receiver, k);
    assert CopyOk(w, n, k);
  }

  /** The sources of every transaction it carries will be there too. */
  lemma NewClosed(w: World, n: NodeId, t: Transaction, f: PC.Family, u: Transaction, s: Transaction)
    requires ChainsOk(w) && CopiesOk(w) && TransactionsOk(w) && CopiesClosed(w)
    requires Proven(w, n, t, f) && KnownOk(w, n, t.receiver) && t.receiver != n
    requires forall x | x in u.source && x.sender == Some(n) && u.sender != Some(n) :: x.block <= t.block
    requires InChain(w, u) && s in u.source && Carries(Message(t, f), u.sender.value, u.block)
    requires s.sender.Some? && s.sender != Some(t.receiver)
    ensures s.block < Max(Reached(w, n, t.receiver, |Queue(w, n, t.receiver)|, s.sender.value),
                          SegmentEnd(Message(t, f), s.sender.value))
  {
    var s0 := SettingOf(w, n, t.receiver);
    var k, o := u.sender.value, s.sender.value;
    CarriedInBlock(w, n, t, f, u);
    ProofIsFamily(w, n, t, f);
    if o == n {
      NewMain(w, n, t, f);
      OwnSourceBefore(w, n, t, f, u, s);
    } else {
      assert PC.BlockClosed(s0, f, k, u.block);
      assert PC.SourcesProvided(s0, f, u);
      assert PC.SourceProvided(s0, f, s);
      SourceLocated(w, n, t.receiver, k, u.block, u, s);
      EndIsReached(w, n, t, f, o);
    }
  }

  /** The sender's own sources: earlier than what carries them, or than the transaction sent. */
  lemma OwnSourceBefore(w: World, n: NodeId, t: Transaction, f: PC.Family, u: Transaction, s: Transaction)
    requires ChainsOk(w) && CopiesOk(w) && TransactionsOk(w) && Proven(w, n, t, f)
    requires forall x | x in u.source && x.sender == Some(n) && u.sender != Some(n) :: x.block <= t.block
    requires InChain(w, u) && s in u.source && s.sender == Some(n) && Carries(Message(t, f), u.sender.value, u.block)
    ensures s.block <= t.block || s.block < SegmentEnd(Message(t, f), n)
  {
    assert TransactionOk(w, u);
    if u.sender == Some(n) {
      NewPieceOf(w, n, t, f, n);
      CarriedInBlock(w, n, t, f, u);
    }
  }

  /** The sender's new knowledge is still covered by what is on its way. */
  lemma NewKnown(w: World, n: NodeId, t: Transaction, f: PC.Family, v: World)
    requires KnownOk(w, n, t.receiver) && Posted(w, n, t.receiver, Message(t, f), v)
    ensures KnownOk(v, n, t.receiver)
  {
    var r := t.receiver;
    forall k | k != r
      ensures LastKnown(Known(v, n, r), k) < Reached(v, n, r, |Queue(v, n, r)|, k)
    {
      ReachedByNew(w, n, r, Message(t, f), v, k);
    }
  }

  lemma NewMessageIntact(w: World, n: NodeId, t: Transaction, f: PC.Family, v: World)
    requires ChainsOk(w) && CopiesOk(w) && TransactionsOk(w) && CopiesClosed(w) && KnownOk(w, n, t.receiver)
    requires Proven(w, n, t, f) && Next(w, n, t) && Posted(w, n, t.receiver, Message(t, f), v)
    ensures NoGap(v, n, t.receiver, |Queue(w, n, t.receiver)|) && Closes(v, n, t.receiver, |Queue(w, n, t.receiver)|)
  {
    var r, q, msg := t.receiver, |Queue(w, n, t.receiver)|, Message(t, f);
    assert Queue(v, n, r)[q] == msg;
    NewMain(w, n, t, f);
    ReachedByNew(w, n, r, msg, v, n);
    forall k | k in f && f[k] != []
      ensures f[k][0].number <= Reached(v, n, r, q, k)
    {
      NewPieceOf(w, n, t, f, k);
      FirstIsReached(w, n, r, k);
      ReachedByNew(w, n, r, msg, v, k);
    }
    forall u, s | InChain(v, u) && s in u.source
      ensures MessageClosed(v, n, r, q, u, s)
    {
      assert Own(v, u.sender.value) == Own(w, u.sender.value);
      ReachedByNew(w, n, r, msg, v, Home(s));
      NewMessageClosed(w, n, t, f, v, u, s);
    }
  }

  lemma NewMessageClosed(w: World, n: NodeId, t: Transaction, f: PC.Family, v: World, u: Transaction, s: Transaction)
    requires ChainsOk(w) && CopiesOk(w) && TransactionsOk(w) && CopiesClosed(w) && KnownOk(w, n, t.receiver)
    requires Proven(w, n, t, f) && Next(w, n, t) && InChain(w, u) && s in u.source
    requires var q := |Queue(w, n, t.receiver)|;
             && |Queue(v, n, t.receiver)| == q + 1 && Queue(v, n, t.receiver)[q] == Message(t, f)
             && Reached(v, n, t.receiver, q + 1, Home(s)) ==
                Max(Reached(w, n, t.receiver, q, Home(s)), SegmentEnd(Message(t, f), Home(s)))
    ensures MessageClosed(v, n, t.receiver, |Queue(w, n, t.receiver)|, u, s)
  {
    if Carries(Message(t, f), u.sender.value, u.block) && s.sender.Some? && s.sender != Some(t.receiver) {
      NewClosed(w, n, t, f, u, s);
    }
  }

  lemma PostIntact(w: World, n: NodeId, t: Transaction, f: PC.Family, v: World)
    requires ChainsOk(w) && CopiesOk(w) && TransactionsOk(w) && CopiesClosed(w)
    requires ChannelOk(w, n, t.receiver) && Intact(w, n, t.receiver)
    requires Proven(w, n, t, f) && Next(w, n, t) && Posted(w, n, t.receiver, Message(t, f), v)
    ensures Intact(v, n, t.receiver)
  {
    NewKnown(w, n, t, f, v);
    NewMessageIntact(w, n, t, f, v);
    OldStayIntact(w, v, n, t.receiver, Message(t, f));
    WholeIntact(v, n, t.receiver, |Queue(w, n, t.receiver)|);
  }

  lemma WholeIntact(w: World, n: NodeId, r: NodeId, q: nat)
    requires KnownOk(w, n, r) && |Queue(w, n, r)| == q + 1 && NoGap(w, n, r, q) && Closes(w, n, r, q)
    requires forall j | 0 <= j < q :: NoGap(w, n, r, j) && Closes(w, n, r, j)
    ensures Intact(w, n, r)
  {
  }

  lemma OldStayIntact(w: World, v: World, n: NodeId, r: NodeId, msg: Message)
    requires Posted(w, n, r, msg, v) && ChannelOk(w, n, r) && Intact(w, n, r)
    ensures |Queue(v, n, r)| == |Queue(w, n, r)| + 1
    ensures forall j | 0 <= j < |Queue(w, n, r)| :: NoGap(v, n, r, j) && Closes(v, n, r, j)
  {
    forall j | 0 <= j < |Queue(w, n, r)|
      ensures NoGap(v, n, r, j) && Closes(v, n, r, j)
    {
      PostedStays(w, v, n, r, msg, j);
    }
  }

  lemma PostedStays(w: World, v: World, n: NodeId, r: NodeId, msg: Message, j: nat)
    requires Posted(w, n, r, msg, v) && j < |Queue(w, n, r)| && ChannelOk(w, n, r) && Intact(w, n, r)
    ensures j < |Queue(v, n, r)| && NoGap(v, n, r, j) && Closes(v, n, r, j)
  {
    assert Queue(v, n, r)[..j + 1] == Queue(w, n, r)[..j + 1];
    assert MessageOk(w, n, r, j);
    MessageStays(w, v, n, r, j);
  }

  // ---- a message is accepted ----

  lemma ReachedShift(w: World, n: NodeId, m: NodeId, v: World, j: nat, k: NodeId)
    requires j < |Queue(w, n, m)| && Queue(v, n, m) == Queue(w, n, m)[1..]
    requires |Copy(v, m, k).blocks| == Max(|Copy(w, m, k).blocks|, SegmentEnd(Queue(w, n, m)[0], k))
    ensures Reached(v, n, m, j, k) == Reached(w, n, m, j + 1, k)
  {
    var q := Queue(w, n, m);
    assert q[..j + 1][1..] == q[1..][..j];
    CoverageShift(|Copy(w, m, k).blocks|, q[..j + 1], k);
  }

  /** With the head handled, the receiver has what it was to have by then. */
  lemma ShiftIntact(w: World, n: NodeId, m: NodeId, v: World)
    requires Queue(w, n, m) != [] && Queue(v, n, m) == Queue(w, n, m)[1..] && Known(v, n, m) == Known(w, n, m)
    requires Intact(w, n, m) && SameChains(w, v) && Grows(w, v)
    requires forall k :: |Copy(v, m, k).blocks| == Max(|Copy(w, m, k).blocks|, SegmentEnd(Queue(w, n, m)[0], k))
    ensures Intact(v, n, m)
  {
    var q := Queue(w, n, m);
    forall j: nat, k | j < |q|
      ensures Reached(v, n, m, j, k) == Reached(w, n, m, j + 1, k)
    {
      ReachedShift(w, n, m, v, j, k);
    }
    forall j | 0 <= j < |q| - 1
      ensures NoGap(v, n, m, j) && Closes(v, n, m, j)
    {
      ShiftedMessage(w, n, m, v, j);
    }
  }

  lemma ShiftedMessage(w: World, n: NodeId, m: NodeId, v: World, j: nat)
    requires j + 1 < |Queue(w, n, m)| && Queue(v, n, m) == Queue(w, n, m)[1..]
    requires NoGap(w, n, m, j + 1) && Closes(w, n, m, j + 1) && SameChains(w, v) && Grows(w, v)
    requires forall i: nat, k | i < |Queue(w, n, m)| :: Reached(v, n, m, i, k) == Reached(w, n, m, i + 1, k)
    ensures NoGap(v, n, m, j) && Closes(v, n, m, j)
  {
    assert Queue(v, n, m)[j] == Queue(w, n, m)[j + 1];
    forall t, s | InChain(v, t) && s in t.source
      ensures MessageClosed(v, n, m, j, t, s)
    {
      assert Own(v, t.sender.value) == Own(w, t.sender.value);
      assert InChain(w, t) && MessageClosed(w, n, m, j + 1, t, s);
    }
  }

  /** The receiver now takes the sender to know what the sender sent, which it does. */
  lemma AnswerKnown(w: World, n: NodeId, m: NodeId, v: World)
    requires Queue(w, n, m) != [] && Delivered(w, n, m, v) && n != m && ChainsOk(w)
    requires KnownOk(w, m, n) && Fits(w, n, m, Queue(w, n, m)[0]) && Grows(w, v)
    ensures KnownOk(v, m, n)
  {
    var msg := Queue(w, n, m)[0];
    forall k | k != n
      ensures LastKnown(Known(v, m, n), k) < Reached(v, m, n, |Queue(v, m, n)|, k)
    {
      SenderHolds(w, n, m, msg, k);
      AnswerKnownAt(w, n, m, v, msg, k);
    }
  }

  lemma AnswerKnownAt(w: World, n: NodeId, m: NodeId, v: World, msg: Message, k: NodeId)
    requires Grows(w, v) && Queue(v, m, n) == Queue(w, m, n)
    requires LastKnown(Known(w, m, n), k) < Reached(w, m, n, |Queue(w, m, n)|, k)
    requires LastKnown(Known(v, m, n), k) == Learned(Known(w, m, n), n, msg.updates, k)
    requires SegmentEnd(msg, k) <= |Copy(w, n, k).blocks|
    ensures LastKnown(Known(v, m, n), k) < Reached(v, m, n, |Queue(v, m, n)|, k)
  {
    ReachedGrows(w, v, m, n, |Queue(w, m, n)|, k);
    CoverageGrows(|Copy(w, n, k).blocks|, |Copy(v, n, k).blocks|, Queue(v, m, n)[..|Queue(v, m, n)|], k);
  }

  /** A sender has every block that it sends. */
  lemma SenderHolds(w: World, n: NodeId, m: NodeId, msg: Message, k: NodeId)
    requires Fits(w, n, m, msg) && ChainsOk(w)
    ensures SegmentEnd(msg, k) <= |Copy(w, n, k).blocks|
  {
    if k in msg.updates {
      assert SegmentOk(w, n, m, k, msg.updates[k], |Copy(w, m, k).blocks|) && OwnChainOk(w, k);
      SegmentNumbers(w, n, m, k, msg.updates[k], |Copy(w, m, k).blocks|);
    }
  }

  lemma DeliveredIntact(w: World, n: NodeId, m: NodeId, v: World, a: NodeId, b: NodeId)
    requires Queue(w, n, m) != [] && Delivered(w, n, m, v) && n != m && ChainsOk(w) && CopiesOk(w)
    requires Fits(w, n, m, Queue(w, n, m)[0]) && ChannelOk(w, a, b) && Intact(w, a, b)
    ensures Intact(v, a, b)
  {
    DeliveredGrows(w, n, m, v);
    if a == n && b == m {
      ShiftIntact(w, n, m, v);
    } else {
      if a == m && b == n {
        AnswerKnown(w, n, m, v);
      } else {
        KnownGrows(w, v, a, b);
      }
      IntactGrows(w, v, a, b);
    }
  }

  // ---- a message is refused ----

  /** The receiver has every block of the message already. */
  ghost predicate NothingNew(w: World, m: NodeId, msg: Message) {
    forall k :: SegmentEnd(msg, k) <= |Copy(w, m, k).blocks|
  }

  lemma {:induction false} CoverageWithout(len: nat, msgs: seq<Message>, k: NodeId)
    requires forall i | 0 <= i < |msgs| :: SegmentEnd(msgs[i], k) == 0
    ensures Coverage(len, msgs, k) == len
    decreases |msgs|
  {
    if msgs != [] {
      CoverageWithout(len, msgs[..|msgs| - 1], k);
    }
  }

  /** The first of the messages that has a segment of chain `k`, or their number. */
  lemma FirstWith(msgs: seq<Message>, k: NodeId) returns (j: nat)
    ensures j <= |msgs| && (j < |msgs| ==> SegmentEnd(msgs[j], k) > 0)
    ensures forall i | 0 <= i < j :: SegmentEnd(msgs[i], k) == 0
  {
    j := 0;
    while j < |msgs| && SegmentEnd(msgs[j], k) == 0
      invariant j <= |msgs| && forall i | 0 <= i < j :: SegmentEnd(msgs[i], k) == 0
    {
      j := j + 1;
    }
  }

  /** If the head brought something new, its loss shows: in the sender's knowledge, or as a
      gap before the next segment of that chain. */
  lemma LossShows(w: World, n: NodeId, m: NodeId, v: World)
    requires Queue(w, n, m) != [] && Shed(w, n, m, v) && ChannelOk(w, n, m) && !NothingNew(w, m, Queue(w, n, m)[0])
    ensures !Safe(v, n, m)
  {
    var q, rest := Queue(w, n, m), Queue(v, n, m);
    var k :| SegmentEnd(q[0], k) > |Copy(w, m, k).blocks|;
    assert MessageOk(w, n, m, 0) && PieceOk(w, n, m, k, q[0].updates[k]);
    var j := FirstWith(rest, k);
    CoverageWithout(|Copy(v, m, k).blocks|, rest[..j], k);
    assert Reached(v, n, m, j, k) == |Copy(w, m, k).blocks|;
    if j < |rest| {
      assert rest[j] == q[j + 1];
      assert SegmentEnd(q[0], k) <= q[j + 1].updates[k][0].number;
      assert !NoGap(v, n, m, j);
    } else {
      assert SegmentEnd(q[0], k) <= LastKnown(Known(w, n, m), k) + 1;
    }
  }

  /** A channel survives the loss of its head exactly when the head brought nothing new. */
  lemma ShedIntactIff(w: World, n: NodeId, m: NodeId, v: World)
    requires Queue(w, n, m) != [] && Shed(w, n, m, v) && ChannelOk(w, n, m) && Intact(w, n, m)
    ensures Intact(v, n, m) <==> NothingNew(w, m, Queue(w, n, m)[0])
    ensures Safe(v, n, m) <==> NothingNew(w, m, Queue(w, n, m)[0])
  {
    if NothingNew(w, m, Queue(w, n, m)[0]) {
      ShiftIntact(w, n, m, v);
    } else {
      LossShows(w, n, m, v);
    }
  }

  // ---- an intact channel delivers ----

  lemma IntactFits(w: World, n: NodeId, m: NodeId)
    requires ChannelOk(w, n, m) && Intact(w, n, m) && Queue(w, n, m) != [] && TransactionsOk(w)
    ensures Fits(w, n, m, Queue(w, n, m)[0]) && ClosesSight(w, m, Queue(w, n, m)[0])
    ensures InSight(w, m, Queue(w, n, m)[0], Queue(w, n, m)[0].main)
  {
    var q := Queue(w, n, m);
    assert MessageOk(w, n, m, 0) && NoGap(w, n, m, 0) && Closes(w, n, m, 0);
    assert q[..0] == [] && q[..1] == [q[0]];
    forall k
      ensures Reached(w, n, m, 0, k) == |Copy(w, m, k).blocks|
      ensures Reached(w, n, m, 1, k) == Covered(w, m, q[0], k)
    {
      assert [q[0]][..0] == [];
    }
    assert TransactionOk(w, q[0].main);
    forall t, s | InChain(w, t) && s in t.source && Carries(q[0], t.sender.value, t.block)
                  && s.sender.Some? && s.sender != Some(m)
      ensures s.block < Covered(w, m, q[0], s.sender.value)
    {
      assert MessageClosed(w, n, m, 0, t, s);
    }
  }

  /** What is in sight is found by the decoder. */
  lemma SightIsFound(w: World, n: NodeId, m: NodeId, msg: Message, t: Transaction)
    requires m in w.state && ChainsOk(w) && CopiesOk(w) && Fits(w, n, m, msg) && InSight(w, m, msg, t)
    ensures FoundIn(w.state[m], msg.updates, t)
  {
    var k := Home(t);
    assert OwnChainOk(w, k) && CopyOk(w, m, k);
    var c, u := Copy(w, m, k).blocks, UpdateOf(msg.updates, k);
    assert t in Own(w, k)[t.block].transactions;
    if t.block < |c| {
      assert c[t.block] == Own(w, k)[t.block];
    } else {
      assert SegmentOk(w, n, m, k, u, |c|);
      SegmentAt(w, n, m, k, u, |c|, t.block);
    }
  }

  /** A message that fits and closes what its receiver has decodes. */
  lemma FitsDecodes(w: World, n: NodeId, m: NodeId, msg: Message)
    requires m in w.state && ChainsOk(w) && CopiesOk(w) && TransactionsOk(w) && CopiesClosed(w)
    requires Fits(w, n, m, msg) && ClosesSight(w, m, msg) && InSight(w, m, msg, msg.main) && msg.main.sender.Some?
    ensures Decodes(w, m, msg)
  {
    MainDecodes(w, n, m, msg);
    forall k | k in msg.updates
      ensures AttachesIn(w.state[m], msg.updates, k)
    {
      assert SegmentOk(w, n, m, k, msg.updates[k], |Copy(w, m, k).blocks|);
    }
    forall k, i, t, x | k in msg.updates && 0 <= i < |msg.updates[k]| && t in msg.updates[k][i].transactions && x in t.source
      ensures FoundIn(w.state[m], msg.updates, x)
    {
      CarriedFound(w, n, m, msg, k, i, t, x);
    }
  }

  lemma MainDecodes(w: World, n: NodeId, m: NodeId, msg: Message)
    requires m in w.state && ChainsOk(w) && CopiesOk(w)
    requires Fits(w, n, m, msg) && InSight(w, m, msg, msg.main) && msg.main.sender.Some?
    ensures FoundIn(w.state[m], msg.updates, msg.main)
    ensures Consistent(CopyIn(w.state[m], msg.main.sender.value).blocks, UpdateOf(msg.updates, msg.main.sender.value))
  {
    var k := msg.main.sender.value;
    SightIsFound(w, n, m, msg, msg.main);
    assert OwnChainOk(w, k) && CopyOk(w, m, k);
    ShowsPrefix(w, n, m, msg, k);
  }

  lemma CarriedFound(w: World, n: NodeId, m: NodeId, msg: Message, k: NodeId, i: nat, t: Transaction, x: Transaction)
    requires m in w.state && ChainsOk(w) && CopiesOk(w) && TransactionsOk(w) && CopiesClosed(w)
    requires Fits(w, n, m, msg) && ClosesSight(w, m, msg)
    requires k in msg.updates && i < |msg.updates[k]| && t in msg.updates[k][i].transactions && x in t.source
    ensures FoundIn(w.state[m], msg.updates, x)
  {
    CarriedInSight(w, n, m, msg, k, i, t);
    SourcesInSight(w, n, m, msg, t, x);
    SightIsFound(w, n, m, msg, x);
  }

  lemma CarriedInSight(w: World, n: NodeId, m: NodeId, msg: Message, k: NodeId, i: nat, t: Transaction)
    requires m in w.state && ChainsOk(w) && Fits(w, n, m, msg)
    requires k in msg.updates && i < |msg.updates[k]| && t in msg.updates[k][i].transactions && t.source != {}
    ensures t.sender == Some(k) && InSight(w, m, msg, t)
  {
    assert SegmentOk(w, n, m, k, msg.updates[k], |Copy(w, m, k).blocks|) && OwnChainOk(w, k);
    SegmentNumbers(w, n, m, k, msg.updates[k], |Copy(w, m, k).blocks|);
    assert t in Own(w, k)[msg.updates[k][0].number + i].transactions;
  }

  /** The head of an intact channel decodes. */
  lemma IntactDecodes(w: World, n: NodeId, m: NodeId)
    requires Inv(w) && Intact(w, n, m) && Queue(w, n, m) != []
    ensures m in w.state && Decodes(w, m, Queue(w, n, m)[0])
  {
    HeadIsOk(w, n, m);
    assert ChannelOk(w, n, m);
    IntactFits(w, n, m);
    FitsDecodes(w, n, m, Queue(w, n, m)[0]);
  }
}
